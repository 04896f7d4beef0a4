/**
  The older `MobileSAMPredictor` pipeline. It has the structure of
  `MobileSAM`, but its getters import the model again on every access, it
  feeds the decoder a dictionary of named inputs, and it also owns a tensor
  allocator and an operator object.
*/
module Predictor {
  import opened Wrappers
  import opened Sentis
  import opened Decoding
  import MobileSam  // only to compare the reloading getter with the lazy one

  const EncoderPath: string := "ONNX/mobilesam.encoder"
  const DecoderPath: string := "ONNX/sam_onnx_example"

  /**
    One get of a reloading slot: the asset is looked up only while none is
    known, and whenever an asset is known the model is imported anew.
  */
  function ReloadGet(s: Slot, found: Option<ModelAsset>): (r: Slot)
    ensures r.asset == (if s.asset.Some? then s.asset else found)
    ensures r.asset.Some? ==> r.model == Some(Imported(r.asset.value))
    ensures r.asset.None? ==> r.model == s.model
  {
    var asset := if s.asset.Some? then s.asset else found;
    if asset.None? then Slot(asset, s.model) else Slot(asset, Some(Imported(asset.value)))
  }

  /**
    Where the lazy getter keeps whatever model the slot holds, the reloading
    getter replaces it with the imported graph.
  */
  lemma ReloadReplacesWhatLazyKeeps(asset: ModelAsset, held: Graph, found: Option<ModelAsset>)
    ensures ReloadGet(Slot(Some(asset), Some(held)), found).model == Some(Imported(asset))
    ensures MobileSam.LazyGet(Slot(Some(asset), Some(held)), found).model == Some(held)
  {
  }

  /** What `InitializeNetwork` does to the two slots: each getter runs twice once both exist. */
  function InitNetwork(enc: Slot, dec: Slot, encFound: Option<ModelAsset>, decFound: Option<ModelAsset>): InitOutcome
  {
    var enc1 := ReloadGet(enc, encFound);
    if enc1.model.None? then InitOutcome(enc1, dec, false)
    else
      var dec1 := ReloadGet(dec, decFound);
      if dec1.model.None? then InitOutcome(enc1, dec1, false)
      else InitOutcome(ReloadGet(enc1, encFound), ReloadGet(dec1, decFound), true)
  }

  /**
    Workers are built exactly when both getters yield a model, and the
    slots then hold whatever the getters return; nothing wraps the encoder.
  */
  lemma InitNetworkBuildsIffBothModels(enc: Slot, dec: Slot, encFound: Option<ModelAsset>, decFound: Option<ModelAsset>)
    ensures var o := InitNetwork(enc, dec, encFound, decFound);
            && (o.built <==> ReloadGet(enc, encFound).model.Some? && ReloadGet(dec, decFound).model.Some?)
            && o.encoder == ReloadGet(enc, encFound)
            && (ReloadGet(enc, encFound).model.None? ==> o.decoder == dec)
            && (ReloadGet(enc, encFound).model.Some? ==> o.decoder == ReloadGet(dec, decFound))
  {
  }

  /** `k` successive initialisations, as repeated `Backend` changes perform them. */
  function Reinit(k: nat, enc: Slot, dec: Slot, encFound: Option<ModelAsset>, decFound: Option<ModelAsset>): InitOutcome
  {
    var o := InitNetwork(enc, dec, encFound, decFound);
    if k <= 1 then o else Reinit(k - 1, o.encoder, o.decoder, encFound, decFound)
  }

  /**
    With both assets present, any number of initialisations from any cache
    state leaves the plain imported graphs: no scaling stage accumulates.
  */
  lemma {:induction false} ReinitKeepsImported(k: nat, enc: Slot, dec: Slot, encAsset: ModelAsset, decAsset: ModelAsset)
    requires k >= 1
    requires enc.asset.None? || enc.asset == Some(encAsset)
    requires dec.asset.None? || dec.asset == Some(decAsset)
    ensures Reinit(k, enc, dec, Some(encAsset), Some(decAsset))
              == InitOutcome(Slot(Some(encAsset), Some(Imported(encAsset))),
                                       Slot(Some(decAsset), Some(Imported(decAsset))), true)
  {
    var o := InitNetwork(enc, dec, Some(encAsset), Some(decAsset));
    assert o.encoder == Slot(Some(encAsset), Some(Imported(encAsset)));
    assert o.decoder == Slot(Some(decAsset), Some(Imported(decAsset)));
    if k > 1 {
      ReinitKeepsImported(k - 1, o.encoder, o.decoder, encAsset, decAsset);
    }
  }

  /** The class-wide model fields of `MobileSAMPredictor`. */
  class ModelCache {
    const resources: map<string, ModelAsset>
    var encoderAsset: Option<ModelAsset>
    var encoderModel: Model?
    var decoderAsset: Option<ModelAsset>
    var decoderModel: Model?

    constructor (resources: map<string, ModelAsset>)
      ensures this.resources == resources
      ensures encoderAsset == None && encoderModel == null
      ensures decoderAsset == None && decoderModel == null
    {
      this.resources := resources;
      encoderAsset := None;
      encoderModel := null;
      decoderAsset := None;
      decoderModel := null;
    }

    function EncoderSlot(): Slot
      reads this
    {
      Slot(encoderAsset, GraphOf(encoderModel))
    }

    function DecoderSlot(): Slot
      reads this
    {
      Slot(decoderAsset, GraphOf(decoderModel))
    }

    /** The `Encoder` getter: a new model on every call once the asset is known. */
    method Encoder() returns (m: Model?)
      modifies this
      ensures EncoderSlot() == ReloadGet(old(EncoderSlot()), ResourcesLoad(resources, EncoderPath))
      ensures m == encoderModel
      ensures encoderAsset.Some? ==> fresh(encoderModel)
      ensures encoderAsset.None? ==> encoderModel == old(encoderModel)
      ensures decoderAsset == old(decoderAsset) && decoderModel == old(decoderModel)
    {
      if encoderAsset.None? {
        encoderAsset := ResourcesLoad(resources, EncoderPath);
      }
      if encoderAsset.Some? {
        encoderModel := LoadModel(encoderAsset.value);
      }
      m := encoderModel;
    }

    /** The `Decoder` getter: a new model on every call once the asset is known. */
    method Decoder() returns (m: Model?)
      modifies this
      ensures DecoderSlot() == ReloadGet(old(DecoderSlot()), ResourcesLoad(resources, DecoderPath))
      ensures m == decoderModel
      ensures decoderAsset.Some? ==> fresh(decoderModel)
      ensures decoderAsset.None? ==> decoderModel == old(decoderModel)
      ensures encoderAsset == old(encoderAsset) && encoderModel == old(encoderModel)
    {
      if decoderAsset.None? {
        decoderAsset := ResourcesLoad(resources, DecoderPath);
      }
      if decoderAsset.Some? {
        decoderModel := LoadModel(decoderAsset.value);
      }
      m := decoderModel;
    }
  }

  class MobileSamPredictor {
    const cache: ModelCache
    var backend: BackendType
    var encoder: LegacyWorker?
    var decoder: LegacyWorker?
    var allocator: Allocator?
    var ops: Ops?
    /** The named decoder inputs. */
    var inputTensors: map<string, Tensor>
    /** The render target allocated for the resized input. */
    var resizedInput: Option<Texture>
    var result: Option<Texture>

    /**
      Two live workers on the current backend run the cached models; a live
      operator object on that backend uses a live allocator; a 1024x1024
      target is allocated.
    */
    ghost predicate WorkersReady()
      reads this, cache, encoder, decoder, allocator, ops
    {
      && encoder != null && decoder != null && allocator != null && ops != null
      && encoder.model == cache.encoderModel && encoder.backend == backend
      && !encoder.disposed && encoder.executed == []
      && decoder.model == cache.decoderModel && decoder.backend == backend
      && !decoder.disposed && decoder.executed == []
      && !allocator.disposed
      && ops.backend == backend && ops.allocator == allocator && !ops.disposed
      && resizedInput == Some(Texture(1024, 1024))
    }

    /**
      The state `InitializeNetwork` leaves: the cache slots follow
      `InitNetwork`; when it builds, everything is ready, otherwise the four
      handles and the target are as before.
    */
    ghost predicate InitializedFrom(enc0: Slot, dec0: Slot, encoder0: LegacyWorker?, decoder0: LegacyWorker?,
                                    allocator0: Allocator?, ops0: Ops?, resized0: Option<Texture>)
      reads this, cache, encoder, decoder, allocator, ops
    {
      var o := InitNetwork(enc0, dec0, ResourcesLoad(cache.resources, EncoderPath), ResourcesLoad(cache.resources, DecoderPath));
      && cache.EncoderSlot() == o.encoder
      && cache.DecoderSlot() == o.decoder
      && if o.built then WorkersReady()
         else
           && encoder == encoder0 && decoder == decoder0
           && allocator == allocator0 && ops == ops0 && resizedInput == resized0
    }

    /** A new instance on the CPU backend with no inputs, initialised from the shared cache. */
    constructor (cache: ModelCache)
      modifies cache
      ensures this.cache == cache && inputTensors == map[]
      ensures backend == CPU && result == None
      ensures InitializedFrom(old(cache.EncoderSlot()), old(cache.DecoderSlot()), null, null, null, null, None)
      ensures encoder != null ==> fresh(encoder) && fresh(decoder) && fresh(allocator) && fresh(ops)
    {
      this.cache := cache;
      backend := CPU;
      encoder := null;
      decoder := null;
      allocator := null;
      ops := null;
      inputTensors := map[];
      resizedInput := None;
      result := None;
      new;
      InitializeNetwork();
    }

    method InitializeNetwork()
      modifies this, cache
      ensures backend == old(backend) && result == old(result) && inputTensors == old(inputTensors)
      ensures InitializedFrom(old(cache.EncoderSlot()), old(cache.DecoderSlot()), old(encoder), old(decoder),
                              old(allocator), old(ops), old(resizedInput))
      ensures cache.encoderAsset.Some? ==> fresh(cache.encoderModel)
      ensures cache.decoderModel != old(cache.decoderModel) ==> fresh(cache.decoderModel)
      ensures encoder != old(encoder) ==> fresh(encoder) && fresh(decoder) && fresh(allocator) && fresh(ops)
    {
      ghost var o := InitNetwork(cache.EncoderSlot(), cache.DecoderSlot(),
        ResourcesLoad(cache.resources, EncoderPath), ResourcesLoad(cache.resources, DecoderPath));
      var probeEncoder := cache.Encoder();
      if probeEncoder == null {
        return;
      }
      var probeDecoder := cache.Decoder();
      if probeDecoder == null {
        return;
      }
      BuildWorkers();
    }

    /** The part of `InitializeNetwork` after both getters have yielded a model. */
    method BuildWorkers()
      requires cache.encoderModel != null && cache.decoderModel != null
      requires ReloadGet(cache.EncoderSlot(), ResourcesLoad(cache.resources, EncoderPath)) == cache.EncoderSlot()
      requires ReloadGet(cache.DecoderSlot(), ResourcesLoad(cache.resources, DecoderPath)) == cache.DecoderSlot()
      modifies this, cache
      ensures cache.EncoderSlot() == old(cache.EncoderSlot()) && cache.DecoderSlot() == old(cache.DecoderSlot())
      ensures cache.encoderAsset.Some? ==> fresh(cache.encoderModel)
      ensures cache.decoderAsset.Some? ==> fresh(cache.decoderModel)
      ensures cache.decoderModel != old(cache.decoderModel) ==> fresh(cache.decoderModel)
      ensures WorkersReady() && fresh(encoder) && fresh(decoder) && fresh(allocator) && fresh(ops)
      ensures backend == old(backend) && result == old(result) && inputTensors == old(inputTensors)
    {
      var encoderModel := cache.Encoder();
      encoder := new LegacyWorker(encoderModel, backend);
      var decoderModel := cache.Decoder();
      decoder := new LegacyWorker(decoderModel, backend);
      CreateOps();
      resizedInput := Some(Texture(1024, 1024));
    }

    /** A new caching allocator, and a new operator object on the current backend that uses it. */
    method CreateOps()
      modifies this`allocator, this`ops
      ensures fresh(allocator) && fresh(ops) && !allocator.disposed
      ensures ops.backend == backend && ops.allocator == allocator && !ops.disposed
    {
      allocator := new Allocator();
      ops := new Ops(backend, allocator);
    }

    /** The `Backend` setter. */
    method SetBackend(value: BackendType)
      modifies this, cache, encoder, decoder, allocator, ops
      ensures value == old(backend) ==> unchanged(this, cache)
      ensures value == old(backend) && old(encoder) != null ==> unchanged(old(encoder))
      ensures value == old(backend) && old(decoder) != null ==> unchanged(old(decoder))
      ensures value == old(backend) && old(allocator) != null ==> unchanged(old(allocator))
      ensures value == old(backend) && old(ops) != null ==> unchanged(old(ops))
      ensures value != old(backend) ==>
                && backend == value && result == old(result) && inputTensors == old(inputTensors)
                && (old(encoder) != null ==> old(encoder).disposed && old(encoder).executed == old(encoder.executed))
                && (old(decoder) != null ==> old(decoder).disposed && old(decoder).executed == old(decoder.executed))
                && (old(allocator) != null ==> old(allocator).disposed)
                && (old(ops) != null ==> old(ops).disposed)
                && InitializedFrom(old(cache.EncoderSlot()), old(cache.DecoderSlot()), old(encoder), old(decoder),
                                   old(allocator), old(ops), old(resizedInput))
                && (encoder != old(encoder) ==> fresh(encoder) && fresh(decoder) && fresh(allocator) && fresh(ops))
    {
      if backend != value {
        Dispose();
        backend := value;
        InitializeNetwork();
      }
    }

    /**
      The tail of `DecodeMasks` for an arbitrary prompt: on a count
      mismatch it throws before touching anything; otherwise it clears the
      dictionary, enters the six named inputs, runs the decoder on them and
      takes the result size from the decoder's `masks` output.
    */
    method DecodePrompt(inputImage: Texture, imageEmbeddings: Tensor, pointCoords: seq<real>, pointLabels: seq<real>, masks: Tensor)
      returns (outcome: Outcome<DecodeError>)
      requires decoder != null && |masks.shape| >= 4
      modifies this`inputTensors, this`result, decoder
      ensures outcome.Fail? <==> ValidatePrompt(pointCoords, pointLabels).Failure?
      ensures outcome.Fail? ==>
                && outcome == Fail(ArgumentException(LabelMismatch))
                && inputTensors == old(inputTensors) && unchanged(decoder) && result == old(result)
      ensures outcome.Pass? ==>
                && inputTensors == NamedInputs(DecoderInputs(imageEmbeddings, pointCoords, pointLabels, inputImage))
                && decoder.executed == old(decoder.executed) + [inputTensors]
                && decoder.disposed == old(decoder.disposed)
                && result == Some(MaskTexture(masks))
    {
      var numPoints := |pointCoords| / 2;
      var numLabels := |pointLabels|;
      if numPoints != numLabels {
        return Fail(ArgumentException(LabelMismatch));
      }
      var pointCoordsTensor := Tensor([1, numPoints, 2], Values(pointCoords));
      var pointLabelsTensor := Tensor([1, numPoints], Values(pointLabels));
      var maskInput := Tensor([1, 1, 256, 256], Zeros);
      var hasMaskInput := Tensor([1], Values([0.0]));
      var origImSize := Tensor([2], Values([inputImage.width as real, inputImage.height as real]));
      inputTensors := map[];
      inputTensors := inputTensors[ImageEmbeddings := imageEmbeddings];
      inputTensors := inputTensors[PointCoords := pointCoordsTensor];
      inputTensors := inputTensors[PointLabels := pointLabelsTensor];
      inputTensors := inputTensors[MaskInput := maskInput];
      inputTensors := inputTensors[HasMaskInput := hasMaskInput];
      inputTensors := inputTensors[OrigImSize := origImSize];
      decoder.Execute(inputTensors);
      var height := masks.shape[2];
      var width := masks.shape[3];
      result := Some(Texture(width, height));
      outcome := Pass;
    }

    /**
      `DecodeMasks`: the prompt arguments are replaced by the centre point
      with label 1, so the count check always passes.
    */
    method DecodeMasks(inputImage: Texture, imageEmbeddings: Tensor, pointCoords: seq<real>, pointLabels: seq<real>, masks: Tensor)
      returns (outcome: Outcome<DecodeError>)
      requires decoder != null && |masks.shape| >= 4
      modifies this`inputTensors, this`result, decoder
      ensures outcome == Pass
      ensures inputTensors == NamedInputs(DecoderInputs(imageEmbeddings, CentrePrompt(inputImage).0, [1.0], inputImage))
      ensures decoder.executed == old(decoder.executed) + [inputTensors]
      ensures decoder.disposed == old(decoder.disposed)
      ensures result == Some(MaskTexture(masks))
    {
      var centre := CentrePrompt(inputImage);
      CentrePromptValid(inputImage);
      outcome := DecodePrompt(inputImage, imageEmbeddings, centre.0, centre.1, masks);
    }

    /** Disposes whichever of the workers, the allocator and the operator object exist. */
    method Dispose()
      modifies encoder, decoder, allocator, ops
      ensures encoder != null ==> encoder.disposed && encoder.executed == old(encoder.executed)
      ensures decoder != null ==> decoder.disposed && decoder.executed == old(decoder.executed)
      ensures allocator != null ==> allocator.disposed
      ensures ops != null ==> ops.disposed
    {
      if encoder != null {
        encoder.Dispose();
      }
      if decoder != null {
        decoder.Dispose();
      }
      if allocator != null {
        allocator.Dispose();
      }
      if ops != null {
        ops.Dispose();
      }
    }
  }
}
