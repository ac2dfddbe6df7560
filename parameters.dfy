/** The wavefolder's parameter schema (six float parameters and one choice,
    in a fixed order) and the value store the processor keeps for it. */
module Parameters {

  /** A float parameter's range: from `min` to `max` in steps of `step`. */
  datatype Range = Range(min: real, max: real, step: real)

  datatype Kind =
    | FloatParam(range: Range, default: real)
    | ChoiceParam(choices: seq<string>, defaultIndex: nat)

  /** One entry of the schema: a stable identifier, a display name and its kind. */
  datatype Descriptor = Descriptor(id: string, name: string, kind: Kind)

  // Constants of the shared `Parameters` namespace.
  const DriveId := "drive"
  const DriveName := "Drive (dB)"
  const DriveDefault := 0.0
  const DriveMin := -30.0
  const DriveMax := 60.0

  const OutGainId := "outGain"
  const OutGainName := "Output Gain (dB)"
  const OutGainDefault := 0.0
  const OutGainMin := -30.0
  const OutGainMax := 30.0

  const BiasPreId := "biasPre"
  const BiasPreName := "Bias (Pre)"
  const BiasPostId := "biasPost"
  const BiasPostName := "Bias (Post)"
  const BiasDefault := 0.0
  const BiasMin := -1.0
  const BiasMax := 1.0

  // The choice parameter that selects the fold variant.
  const WavefolderId := "wavefolder"
  const WavefolderName := "Wavefolder Type"
  const ProcessorChoices := ["FoldToRange", "SinFold", "ComboFold"]

  /** The threshold and mix constants the processor refers to but whose values
      are not part of this model: any values with a non-empty range containing
      the default, and identifiers distinct from every other parameter's. */
  datatype FoldConstants = FoldConstants(
    thresId: string, thresName: string, thresMin: real, thresMax: real, thresDefault: real,
    mixId: string, mixName: string, mixMin: real, mixMax: real, mixDefault: real)

  predicate ValidConstants(k: FoldConstants) {
    && k.thresMin < k.thresMax && k.thresMin <= k.thresDefault <= k.thresMax
    && k.mixMin < k.mixMax && k.mixMin <= k.mixDefault <= k.mixMax
    && k.thresId != k.mixId
    && k.thresId !in [DriveId, OutGainId, BiasPreId, BiasPostId, WavefolderId]
    && k.mixId !in [DriveId, OutGainId, BiasPreId, BiasPostId, WavefolderId]
  }

  /** A descriptor is well formed when its range is non-empty with a positive
      step and holds the default, or when its default choice exists. */
  predicate WellFormed(d: Descriptor) {
    match d.kind
    case FloatParam(r, def) => r.min < r.max && 0.0 < r.step && r.min <= def <= r.max
    case ChoiceParam(cs, i) => i < |cs|
  }

  predicate DistinctIds(params: seq<Descriptor>) {
    forall i, j :: 0 <= i < j < |params| ==> params[i].id != params[j].id
  }

  function Ids(params: seq<Descriptor>): seq<string> {
    seq(|params|, i requires 0 <= i < |params| => params[i].id)
  }

  /** The schema in the order the processor registers it. */
  function FoldSchema(k: FoldConstants): seq<Descriptor> {
    [ Descriptor(DriveId, DriveName, FloatParam(Range(DriveMin, DriveMax, 0.1), DriveDefault)),
      Descriptor(OutGainId, OutGainName, FloatParam(Range(OutGainMin, OutGainMax, 0.1), OutGainDefault)),
      Descriptor(BiasPreId, BiasPreName, FloatParam(Range(BiasMin, BiasMax, 0.01), BiasDefault)),
      Descriptor(BiasPostId, BiasPostName, FloatParam(Range(BiasMin, BiasMax, 0.01), BiasDefault)),
      Descriptor(k.thresId, k.thresName, FloatParam(Range(k.thresMin, k.thresMax, 0.01), k.thresDefault)),
      Descriptor(k.mixId, k.mixName, FloatParam(Range(k.mixMin, k.mixMax, 0.1), k.mixDefault)),
      Descriptor(WavefolderId, WavefolderName, ChoiceParam(ProcessorChoices, 0)) ]
  }

  /** Builds the layout one `add` at a time, in registration order. */
  method CreateParams(k: FoldConstants) returns (layout: seq<Descriptor>)
    ensures layout == FoldSchema(k)
  {
    layout := [];
    layout := layout + [Descriptor(DriveId, DriveName, FloatParam(Range(DriveMin, DriveMax, 0.1), DriveDefault))];
    layout := layout + [Descriptor(OutGainId, OutGainName, FloatParam(Range(OutGainMin, OutGainMax, 0.1), OutGainDefault))];
    layout := layout + [Descriptor(BiasPreId, BiasPreName, FloatParam(Range(BiasMin, BiasMax, 0.01), BiasDefault))];
    layout := layout + [Descriptor(BiasPostId, BiasPostName, FloatParam(Range(BiasMin, BiasMax, 0.01), BiasDefault))];
    layout := layout + [Descriptor(k.thresId, k.thresName, FloatParam(Range(k.thresMin, k.thresMax, 0.01), k.thresDefault))];
    layout := layout + [Descriptor(k.mixId, k.mixName, FloatParam(Range(k.mixMin, k.mixMax, 0.1), k.mixDefault))];
    layout := layout + [Descriptor(WavefolderId, WavefolderName, ChoiceParam(ProcessorChoices, 0))];
  }

  /** The schema has seven parameters in a fixed order with distinct
      identifiers, every descriptor is well formed, and the last one is the
      three-way variant choice defaulting to its first entry. */
  lemma FoldSchemaWellFormed(k: FoldConstants)
    requires ValidConstants(k)
    ensures |FoldSchema(k)| == 7
    ensures Ids(FoldSchema(k)) == [DriveId, OutGainId, BiasPreId, BiasPostId, k.thresId, k.mixId, WavefolderId]
    ensures DistinctIds(FoldSchema(k))
    ensures forall d :: d in FoldSchema(k) ==> WellFormed(d)
    ensures FoldSchema(k)[6].kind == ChoiceParam(ProcessorChoices, 0) && |ProcessorChoices| == 3
  {
  }

  /** The value store: the current raw (denormalised) value of every parameter,
      by identifier; a choice is stored as its index. */
  type Store = map<string, real>

  /** The value a descriptor starts at. */
  function DefaultValue(d: Descriptor): real {
    match d.kind
    case FloatParam(_, def) => def
    case ChoiceParam(_, i) => i as real
  }

  /** Whether `v` is a value the descriptor's parameter can hold. */
  predicate InRange(d: Descriptor, v: real) {
    match d.kind
    case FloatParam(r, _) => r.min <= v <= r.max
    case ChoiceParam(cs, _) => 0.0 <= v <= (|cs| - 1) as real
  }

  /** Every parameter of the schema has a slot in the store, holding a value in its range. */
  predicate StoreMatches(params: seq<Descriptor>, store: Store) {
    forall d :: d in params ==> d.id in store && InRange(d, store[d.id])
  }

  /** The store the processor starts with: one slot per parameter, holding its
      default. With a well-formed schema every slot starts in range. */
  method InitialValues(params: seq<Descriptor>) returns (store: Store)
    requires DistinctIds(params)
    ensures store.Keys == set d | d in params :: d.id
    ensures forall d :: d in params ==> store[d.id] == DefaultValue(d)
    ensures (forall d :: d in params ==> WellFormed(d)) ==> StoreMatches(params, store)
  {
    store := map[];
    var i := 0;
    while i < |params|
      invariant 0 <= i <= |params|
      invariant store.Keys == set j | 0 <= j < i :: params[j].id
      invariant forall j :: 0 <= j < i ==> store[params[j].id] == DefaultValue(params[j])
    {
      store := store[params[i].id := DefaultValue(params[i])];
      i := i + 1;
    }
    assert forall d :: d in params ==> exists j :: 0 <= j < |params| && params[j] == d;
  }
}
