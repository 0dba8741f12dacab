/** The renderer-side sample transport of SamplesPipe.h: a `SampleBuffer`
    holding one sample's random parameters and features, and a
    `SamplesPipe` that positions over a tile of sample records and inserts
    buffers into it.

    The enumerations RandomParameter and Feature (samples.h) and the record
    layout are not part of this model: an enumerator is an opaque index
    into the buffer's parameter or feature array, and which enumerator is
    instance `number` of a numbered feature is a table in the `Layout`.
    A tile record has the shape of a sample buffer. The static layout state
    shared by all buffers and pipes is an explicit `Layout` argument. */
module Samples {
  import opened Values

  /** An enumerator of RandomParameter. */
  type RandomParameter = nat

  /** An enumerator of Feature. */
  type Feature = nat

  /** Whether the client supplies a random parameter (INPUT) or the renderer does (OUTPUT). */
  datatype Direction = Input | Output

  /** The static state every buffer shares: the input/output mask
      `m_ioMask`, one entry per random parameter (features are always
      OUTPUT and have no entry); the number of features, NUM_FEATURES; and
      the numbered instances, mapping (WORLD_X, 1) to WORLD_X_1 and so on. */
  datatype Layout = Layout(
    ioMask: seq<Direction>,
    numFeatures: nat,
    instances: map<(Feature, nat), Feature>)

  /** Instance 0 of every feature is the feature itself, and every
      instance is a feature of the enumeration. */
  ghost predicate WellFormed(layout: Layout)
  {
    && (forall f: Feature :: f < layout.numFeatures ==>
          (f, 0) in layout.instances && layout.instances[(f, 0)] == f)
    && (forall key :: key in layout.instances ==> layout.instances[key] < layout.numFeatures)
  }

  /** One sample: the parameter array and the feature array. */
  datatype SampleBuffer = SampleBuffer(
    parameters: seq<Float>,
    features: seq<Float>)

  /** The buffer has one slot per random parameter of the mask and one per feature. */
  predicate Fits(layout: Layout, b: SampleBuffer)
  {
    |b.parameters| == |layout.ioMask| && |b.features| == layout.numFeatures
  }

  /** `get(RandomParameter i)`: the slot's value, which writing back
      through `set` leaves the buffer as it was, whatever the layout. */
  function GetParameter(b: SampleBuffer, i: RandomParameter): (r: Float)
    requires i < |b.parameters|
    ensures forall layout :: Fits(layout, b) ==> SetParameter(layout, b, i, r) == (b, r)
  {
    assert b.parameters[i := b.parameters[i]] == b.parameters;
    b.parameters[i]
  }

  /** `set(RandomParameter i, v)`: writes `v` only when the layout marks `i`
      OUTPUT, otherwise has no effect; returns the buffer (first) and the
      value now in the buffer (second). */
  function SetParameter(layout: Layout, b: SampleBuffer, i: RandomParameter, v: Float): (r: (SampleBuffer, Float))
    requires Fits(layout, b) && i < |layout.ioMask|
    ensures Fits(layout, r.0)
    ensures r.1 == r.0.parameters[i]
    ensures layout.ioMask[i] == Output ==> r.0.parameters[i] == v
    ensures layout.ioMask[i] == Input ==> r.0 == b
    ensures forall j :: 0 <= j < |b.parameters| && j != i ==> r.0.parameters[j] == b.parameters[j]
    ensures r.0.features == b.features
  {
    if layout.ioMask[i] == Output then
      var b' := b.(parameters := b.parameters[i := v]);
      (b', v)
    else
      (b, b.parameters[i])
  }

  /** `get(Feature f)`: the slot's value, which writing back through `set`
      leaves the buffer as it was. */
  function GetFeature(b: SampleBuffer, f: Feature): (r: Float)
    requires f < |b.features|
    ensures SetFeature(b, f, r) == (b, r)
  {
    assert b.features[f := b.features[f]] == b.features;
    b.features[f]
  }

  /** `set(Feature f, v)`: always writes `v` and returns it. */
  function SetFeature(b: SampleBuffer, f: Feature, v: Float): (r: (SampleBuffer, Float))
    requires f < |b.features|
    ensures r.1 == v
    ensures |r.0.features| == |b.features|
    ensures r.0.features[f] == v
    ensures forall g :: 0 <= g < |b.features| && g != f ==> r.0.features[g] == b.features[g]
    ensures r.0.parameters == b.parameters
  {
    (b.(features := b.features[f := v]), v)
  }

  /** `set(Feature f, number, v)`: always writes `v` into the feature that
      is instance `number` of `f`, and returns it. */
  function SetNumberedFeature(layout: Layout, b: SampleBuffer, f: Feature, number: int, v: Float): (r: (SampleBuffer, Float))
    requires WellFormed(layout) && Fits(layout, b)
    requires 0 <= number && (f, number) in layout.instances
    ensures Fits(layout, r.0)
    ensures r.1 == v
    ensures r.0.features[layout.instances[(f, number)]] == v
    ensures forall g :: 0 <= g < |b.features| && g != layout.instances[(f, number)] ==>
      r.0.features[g] == b.features[g]
    ensures r.0.parameters == b.parameters
  {
    SetFeature(b, layout.instances[(f, number)], v)
  }

  /** The value `set` returns for a random parameter is what `get` reads
      afterwards: `v` for an OUTPUT parameter, the value the buffer already
      held for an INPUT one. */
  lemma SetParameterThenGet(layout: Layout, b: SampleBuffer, i: RandomParameter, v: Float)
    requires Fits(layout, b) && i < |layout.ioMask|
    ensures GetParameter(SetParameter(layout, b, i, v).0, i) == SetParameter(layout, b, i, v).1
    ensures layout.ioMask[i] == Output ==> GetParameter(SetParameter(layout, b, i, v).0, i) == v
    ensures layout.ioMask[i] == Input ==> GetParameter(SetParameter(layout, b, i, v).0, i) == GetParameter(b, i)
  {
  }

  /** Feature writes take effect: `get(f)` after `set(f, v)` returns `v`. */
  lemma SetFeatureThenGet(b: SampleBuffer, f: Feature, v: Float)
    requires f < |b.features|
    ensures GetFeature(SetFeature(b, f, v).0, f) == v
  {
  }

  /** A numbered write is read back through the feature it names: after
      `set(WORLD_X, 1, v)`, `get(WORLD_X_1)` returns `v`, and `get` of any
      other feature is unchanged. */
  lemma SetNumberedThenGet(layout: Layout, b: SampleBuffer, f: Feature, number: nat, v: Float, g: Feature)
    requires WellFormed(layout) && Fits(layout, b)
    requires (f, number) in layout.instances && g < layout.numFeatures
    ensures g == layout.instances[(f, number)] ==>
      GetFeature(SetNumberedFeature(layout, b, f, number, v).0, g) == v
    ensures g != layout.instances[(f, number)] ==>
      GetFeature(SetNumberedFeature(layout, b, f, number, v).0, g) == GetFeature(b, g)
  {
  }

  /** Instance number 0 is the unnumbered feature. */
  lemma NumberZeroIsUnnumbered(layout: Layout, b: SampleBuffer, f: Feature, v: Float)
    requires WellFormed(layout) && Fits(layout, b) && f < layout.numFeatures
    ensures SetNumberedFeature(layout, b, f, 0, v) == SetFeature(b, f, v)
    ensures GetFeature(SetNumberedFeature(layout, b, f, 0, v).0, f) == v
  {
  }

  /** A pipe over one tile: the tile's sample records, the current position
      (a record index; how `seek(x, y)` computes it is not modelled), and
      the number of samples inserted so far. */
  datatype SamplesPipe = SamplesPipe(records: seq<SampleBuffer>, position: nat, numSamples: nat)

  /** The position is within the tile or just past its end. */
  predicate Valid(p: SamplesPipe)
  {
    p.position <= |p.records|
  }

  /** Every record of the tile has the layout's shape. */
  ghost predicate TileFits(layout: Layout, records: seq<SampleBuffer>)
  {
    forall k :: 0 <= k < |records| ==> Fits(layout, records[k])
  }

  /** A pipe just bound to a tile whose records hold the client's input
      values: nothing inserted yet, positioned at the first record. */
  function Open(records: seq<SampleBuffer>): (p: SamplesPipe)
    ensures Valid(p)
    ensures p.numSamples == 0
    ensures p.position == 0
    ensures p.records == records
  {
    SamplesPipe(records, 0, 0)
  }

  /** `seek`: moves to an already computed record position. */
  function Seek(p: SamplesPipe, position: nat): (r: SamplesPipe)
    requires position < |p.records|
    ensures Valid(r)
    ensures r.position == position
    ensures r.records == p.records && r.numSamples == p.numSamples
  {
    p.(position := position)
  }

  /** `getBuffer()`: a buffer for the current position whose INPUT random
      parameters hold the values the client wrote into that record. */
  function GetBuffer(layout: Layout, p: SamplesPipe): (b: SampleBuffer)
    requires p.position < |p.records| && Fits(layout, p.records[p.position])
    ensures Fits(layout, b)
    ensures forall i :: 0 <= i < |layout.ioMask| && layout.ioMask[i] == Input ==>
      b.parameters[i] == p.records[p.position].parameters[i]
  {
    p.records[p.position]
  }

  /** `after` is record `before` once `buffer` has been inserted over it:
      the client's INPUT parameters are kept, the OUTPUT parameters and the
      features come from the buffer. */
  ghost predicate Inserted(layout: Layout, before: SampleBuffer, buffer: SampleBuffer, after: SampleBuffer)
  {
    && Fits(layout, before) && Fits(layout, buffer) && Fits(layout, after)
    && (forall i :: 0 <= i < |layout.ioMask| && layout.ioMask[i] == Input ==>
          after.parameters[i] == before.parameters[i])
    && (forall i :: 0 <= i < |layout.ioMask| && layout.ioMask[i] == Output ==>
          after.parameters[i] == buffer.parameters[i])
    && after.features == buffer.features
  }

  /** The record written by `operator<<`: a parameter slot takes the
      buffer's value when the layout marks it OUTPUT and keeps the record's
      value otherwise; the features are the buffer's. */
  function StoreOutputs(layout: Layout, record: SampleBuffer, buffer: SampleBuffer): (r: SampleBuffer)
    ensures |r.parameters| == |record.parameters|
    ensures Fits(layout, record) && Fits(layout, buffer) ==> Inserted(layout, record, buffer, r)
  {
    SampleBuffer(
      seq(|record.parameters|, i requires 0 <= i < |record.parameters| =>
        if i < |layout.ioMask| && i < |buffer.parameters| && layout.ioMask[i] == Output
        then buffer.parameters[i] else record.parameters[i]),
      buffer.features)
  }

  /** `pipe << buffer`: stores the buffer at the current position, counts
      one more inserted sample and advances to the next position. No other
      record changes. */
  function Insert(layout: Layout, p: SamplesPipe, buffer: SampleBuffer): (r: SamplesPipe)
    requires Valid(p) && p.position < |p.records|
    ensures Valid(r)
    ensures r.numSamples == p.numSamples + 1
    ensures r.position == p.position + 1
    ensures r.records == p.records[p.position := r.records[p.position]]
    ensures r.records[p.position] == StoreOutputs(layout, p.records[p.position], buffer)
  {
    var record := StoreOutputs(layout, p.records[p.position], buffer);
    SamplesPipe(p.records[p.position := record], p.position + 1, p.numSamples + 1)
  }

  /** A buffer of the layout's shape inserted over a record of that shape
      lands there as `Inserted` describes, and the tile keeps its shape. */
  lemma InsertStoresBuffer(layout: Layout, p: SamplesPipe, buffer: SampleBuffer)
    requires Valid(p) && p.position < |p.records|
    requires TileFits(layout, p.records) && Fits(layout, buffer)
    ensures Inserted(layout, p.records[p.position], buffer, Insert(layout, p, buffer).records[p.position])
    ensures TileFits(layout, Insert(layout, p, buffer).records)
  {
    var r := Insert(layout, p, buffer);
    forall k | 0 <= k < |r.records|
      ensures Fits(layout, r.records[k])
    {
      if k != p.position {
        assert r.records[k] == p.records[k];
      }
    }
  }

  /** Insert `buffers` one after the other without seeking in between:
      the count grows by one per buffer and the position advances past them. */
  function InsertAll(layout: Layout, p: SamplesPipe, buffers: seq<SampleBuffer>): (r: SamplesPipe)
    requires Valid(p) && p.position + |buffers| <= |p.records|
    ensures Valid(r)
    ensures |r.records| == |p.records|
    ensures r.numSamples == p.numSamples + |buffers|
    ensures r.position == p.position + |buffers|
    decreases |buffers|
  {
    if |buffers| == 0 then p
    else InsertAll(layout, Insert(layout, p, buffers[0]), buffers[1..])
  }

  /** Consecutive inserts leave the records outside the range they fill untouched. */
  lemma {:induction false} InsertAllKeepsOthers(layout: Layout, p: SamplesPipe, buffers: seq<SampleBuffer>, k: nat)
    requires Valid(p) && p.position + |buffers| <= |p.records|
    requires k < |p.records| && !(p.position <= k < p.position + |buffers|)
    ensures InsertAll(layout, p, buffers).records[k] == p.records[k]
    decreases |buffers|
  {
    if |buffers| > 0 {
      var q := Insert(layout, p, buffers[0]);
      InsertAllKeepsOthers(layout, q, buffers[1..], k);
    }
  }

  /** Consecutive inserts fill consecutive records: record position+k ends up
      holding buffer k's outputs over its own client inputs. */
  lemma {:induction false} InsertAllFills(layout: Layout, p: SamplesPipe, buffers: seq<SampleBuffer>, k: nat)
    requires Valid(p) && p.position + |buffers| <= |p.records|
    requires k < |buffers|
    ensures InsertAll(layout, p, buffers).records[p.position + k]
         == StoreOutputs(layout, p.records[p.position + k], buffers[k])
    decreases |buffers|
  {
    var q := Insert(layout, p, buffers[0]);
    var rest := buffers[1..];
    assert InsertAll(layout, p, buffers) == InsertAll(layout, q, rest);
    if k == 0 {
      InsertAllKeepsOthers(layout, q, rest, p.position);
    } else {
      InsertAllFills(layout, q, rest, k - 1);
      assert rest[k - 1] == buffers[k];
    }
  }

  /** From a newly opened pipe, filling the whole tile in order inserts one
      sample per record, leaves the position at the end of the tile, and
      every record then carries its buffer's outputs and its client inputs. */
  lemma FillFromOpen(layout: Layout, records: seq<SampleBuffer>, buffers: seq<SampleBuffer>)
    requires TileFits(layout, records) && TileFits(layout, buffers)
    requires |buffers| == |records|
    ensures InsertAll(layout, Open(records), buffers).numSamples == |records|
    ensures InsertAll(layout, Open(records), buffers).position == |records|
    ensures forall k :: 0 <= k < |records| ==>
      Inserted(layout, records[k], buffers[k], InsertAll(layout, Open(records), buffers).records[k])
  {
    var p := Open(records);
    forall k | 0 <= k < |records|
      ensures Inserted(layout, records[k], buffers[k], InsertAll(layout, p, buffers).records[k])
    {
      InsertAllFills(layout, p, buffers, k);
    }
  }

  /** One producer step: take the buffer for the current position, set a
      random parameter, insert. The record then holds exactly the value `set`
      returned: `v` for an OUTPUT parameter, the client's value for an INPUT one. */
  lemma ProducerStep(layout: Layout, p: SamplesPipe, i: RandomParameter, v: Float)
    requires Valid(p) && p.position < |p.records| && Fits(layout, p.records[p.position])
    requires i < |layout.ioMask|
    ensures var (b, x) := SetParameter(layout, GetBuffer(layout, p), i, v);
      && Insert(layout, p, b).records[p.position].parameters[i] == x
      && (layout.ioMask[i] == Output ==> x == v)
      && (layout.ioMask[i] == Input ==> x == p.records[p.position].parameters[i])
  {
  }

  /** One producer step for a feature: take the buffer for the current
      position, write instance `number` of feature `f`, insert. The record
      then holds `v` in the feature that instance names. */
  lemma ProducerFeatureStep(layout: Layout, p: SamplesPipe, f: Feature, number: nat, v: Float)
    requires WellFormed(layout)
    requires Valid(p) && p.position < |p.records| && Fits(layout, p.records[p.position])
    requires (f, number) in layout.instances
    ensures var (b, x) := SetNumberedFeature(layout, GetBuffer(layout, p), f, number, v);
      && x == v
      && GetFeature(Insert(layout, p, b).records[p.position], layout.instances[(f, number)]) == v
  {
  }
}
