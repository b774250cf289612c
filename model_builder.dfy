/** The model builder: turns one asset-model definition from the models
    configuration into the ordered list of property records sent with the
    create-asset-model call, and records the created model in the manifest. */
module ModelBuilder {
  import opened Common
  import opened Seqs
  import opened Manifest

  // ----- configuration entities -----

  datatype Attribute = Attribute(name: string, dataType: string, defaultValue: string)

  /** `unit` is `None` when the configuration holds JSON null. */
  datatype Measurement = Measurement(name: string, dataType: string, unit: Option<string>,
                                     forwardConfigState: string)

  datatype Variable = Variable(name: string, propertyLogicalId: string)

  datatype Transform = Transform(name: string, dataType: string, unit: Option<string>,
                                 expression: string, variables: seq<Variable>,
                                 computeLocation: string, forwardConfigState: string)

  datatype Metric = Metric(name: string, dataType: string, unit: Option<string>,
                           expression: string, variables: seq<Variable>,
                           interval: string, offset: Option<string>, computeLocation: string)

  datatype ModelDefinition = ModelDefinition(
    modelName: string, modelDescription: string,
    attributes: seq<Attribute>, measurements: seq<Measurement>,
    transforms: seq<Transform>, metrics: seq<Metric>)

  // ----- the property records of the remote schema -----

  /** `{'name': n, 'value': {'propertyId': id}}` */
  datatype VariableValue = VariableValue(name: string, propertyId: string)

  /** A tumbling window; `offset` is present only when configured. */
  datatype TumblingWindow = TumblingWindow(interval: string, offset: Option<string>)

  /** The `type` of a property record; each kind carries the unit field it
      sends (attributes send none, measurements always send a string,
      transforms and metrics pass the configured value through). */
  datatype PropertyType =
    | AttributeType(defaultValue: string)
    | MeasurementType(unit: string, forwardingState: string)
    | TransformType(configuredUnit: Option<string>, expression: string, variables: seq<VariableValue>,
                    computeLocation: string, forwardingState: string)
    | MetricType(configuredUnit: Option<string>, expression: string, variables: seq<VariableValue>,
                 window: TumblingWindow, computeLocation: string)

  datatype PropertyRecord = PropertyRecord(name: string, dataType: string, kind: PropertyType)

  /** The sentinel a null measurement unit is replaced by. */
  const NoneUnit: string := "None"

  // ----- one record per specification entry -----

  function VariableRef(v: Variable): VariableValue {
    VariableValue(v.name, v.propertyLogicalId)
  }

  function AttributeProperty(a: Attribute): PropertyRecord {
    PropertyRecord(a.name, a.dataType, AttributeType(a.defaultValue))
  }

  function MeasurementProperty(m: Measurement): PropertyRecord {
    PropertyRecord(m.name, m.dataType,
                   MeasurementType(if m.unit.None? then NoneUnit else m.unit.value,
                                   m.forwardConfigState))
  }

  function TransformProperty(t: Transform): PropertyRecord {
    PropertyRecord(t.name, t.dataType,
                   TransformType(t.unit, t.expression, MapSeq(VariableRef, t.variables),
                                 t.computeLocation, t.forwardConfigState))
  }

  function MetricProperty(m: Metric): PropertyRecord {
    PropertyRecord(m.name, m.dataType,
                   MetricType(m.unit, m.expression, MapSeq(VariableRef, m.variables),
                              TumblingWindow(m.interval, m.offset), m.computeLocation))
  }

  /** The whole property list: attributes, then measurements, then
      transforms, then metrics, each in configuration order. */
  function PropertyValues(model: ModelDefinition): seq<PropertyRecord> {
    MapSeq(AttributeProperty, model.attributes)
    + MapSeq(MeasurementProperty, model.measurements)
    + MapSeq(TransformProperty, model.transforms)
    + MapSeq(MetricProperty, model.metrics)
  }

  // ----- properties of the list -----

  /** One record per entry, grouped by kind in the fixed order, so the
      length is the sum of the four input lengths. */
  lemma PropertyValuesLayout(model: ModelDefinition)
    ensures |PropertyValues(model)|
         == |model.attributes| + |model.measurements| + |model.transforms| + |model.metrics|
    ensures forall i :: 0 <= i < |model.attributes| ==>
              PropertyValues(model)[i] == AttributeProperty(model.attributes[i])
    ensures forall i :: 0 <= i < |model.measurements| ==>
              PropertyValues(model)[|model.attributes| + i]
              == MeasurementProperty(model.measurements[i])
    ensures forall i :: 0 <= i < |model.transforms| ==>
              PropertyValues(model)[|model.attributes| + |model.measurements| + i]
              == TransformProperty(model.transforms[i])
    ensures forall i :: 0 <= i < |model.metrics| ==>
              PropertyValues(model)[|model.attributes| + |model.measurements| + |model.transforms| + i]
              == MetricProperty(model.metrics[i])
  {
    AttributesAt(model);
    MeasurementsAt(model);
    TransformsAt(model);
    MetricsAt(model);
  }

  lemma AttributesAt(model: ModelDefinition)
    ensures forall i :: 0 <= i < |model.attributes| ==>
              PropertyValues(model)[i] == AttributeProperty(model.attributes[i])
  {
  }

  lemma MeasurementsAt(model: ModelDefinition)
    ensures forall i :: 0 <= i < |model.measurements| ==>
              PropertyValues(model)[|model.attributes| + i]
              == MeasurementProperty(model.measurements[i])
  {
  }

  lemma TransformsAt(model: ModelDefinition)
    ensures forall i :: 0 <= i < |model.transforms| ==>
              PropertyValues(model)[|model.attributes| + |model.measurements| + i]
              == TransformProperty(model.transforms[i])
  {
  }

  lemma MetricsAt(model: ModelDefinition)
    ensures forall i :: 0 <= i < |model.metrics| ==>
              PropertyValues(model)[|model.attributes| + |model.measurements| + |model.transforms| + i]
              == MetricProperty(model.metrics[i])
  {
  }

  /** Every record keeps its entry's name and data type, and the kind of the
      record is the kind of the group the entry is configured in. */
  lemma PropertyKinds(model: ModelDefinition)
    ensures var r := PropertyValues(model);
            var a, m, t := |model.attributes|, |model.measurements|, |model.transforms|;
            forall i :: 0 <= i < |r| ==>
              && (r[i].kind.AttributeType? <==> i < a)
              && (r[i].kind.MeasurementType? <==> a <= i < a + m)
              && (r[i].kind.TransformType? <==> a + m <= i < a + m + t)
              && (r[i].kind.MetricType? <==> a + m + t <= i)
  {
    PropertyValuesLayout(model);
  }

  /** A null measurement unit becomes the string "None"; any other unit is
      sent unchanged. */
  lemma MeasurementUnit(m: Measurement)
    ensures m.unit.None? ==> MeasurementProperty(m).kind.unit == NoneUnit
    ensures m.unit.Some? ==> MeasurementProperty(m).kind.unit == m.unit.value
  {
  }

  /** A transform's unit is passed through as configured, null included. */
  lemma TransformUnit(t: Transform)
    ensures TransformProperty(t).kind.configuredUnit == t.unit
  {
  }

  /** The tumbling window carries an offset exactly when the metric has
      one, and always carries the metric's interval. */
  lemma MetricWindow(m: Metric)
    ensures MetricProperty(m).kind.window.offset.Some? <==> m.offset.Some?
    ensures m.offset.Some? ==> MetricProperty(m).kind.window.offset.value == m.offset.value
    ensures MetricProperty(m).kind.window.interval == m.interval
  {
  }

  /** Transform and metric variables are the configured variables in
      order, each bound to its logical property id. */
  lemma VariablesInOrder(t: Transform, m: Metric)
    ensures var tv := TransformProperty(t).kind.variables;
            |tv| == |t.variables| &&
            forall i :: 0 <= i < |tv| ==>
              tv[i].name == t.variables[i].name && tv[i].propertyId == t.variables[i].propertyLogicalId
    ensures var mv := MetricProperty(m).kind.variables;
            |mv| == |m.variables| &&
            forall i :: 0 <= i < |mv| ==>
              mv[i].name == m.variables[i].name && mv[i].propertyId == m.variables[i].propertyLogicalId
  {
  }

  // ----- the loops of create_asset_model -----

  /** The inner loop that turns a variable list into `{name, value}` pairs. */
  method BuildVariables(vars: seq<Variable>) returns (values: seq<VariableValue>)
    ensures values == MapSeq(VariableRef, vars)
  {
    values := [];
    for i := 0 to |vars|
      invariant values == MapSeq(VariableRef, vars[..i])
    {
      MapSeqSnoc(VariableRef, vars[..i], vars[i]);
      assert vars[..i + 1] == vars[..i] + [vars[i]];
      values := values + [VariableRef(vars[i])];
    }
    assert vars[..|vars|] == vars;
  }

  /** The attribute loop of `create_asset_model`. */
  method BuildAttributes(attrs: seq<Attribute>) returns (props: seq<PropertyRecord>)
    ensures props == MapSeq(AttributeProperty, attrs)
  {
    props := [];
    for i := 0 to |attrs|
      invariant props == MapSeq(AttributeProperty, attrs[..i])
    {
      var a := attrs[i];
      MapSeqSnoc(AttributeProperty, attrs[..i], a);
      assert attrs[..i + 1] == attrs[..i] + [a];
      props := props + [PropertyRecord(a.name, a.dataType, AttributeType(a.defaultValue))];
    }
    assert attrs[..|attrs|] == attrs;
  }

  /** A measurement after the loop's in-place rewrite of a null unit. */
  function Normalised(m: Measurement): Measurement {
    if m.unit.None? then m.(unit := Some(NoneUnit)) else m
  }

  /** The local `measurement` the measurement loop leaves behind: unbound
      when there were no measurements, else the last one, whose unit the
      loop has already rewritten, so it is never null. */
  function MeasurementLocal(ms: seq<Measurement>): (r: Option<Measurement>)
    ensures r.None? <==> ms == []
    ensures r.Some? ==> r.value.unit.Some?
  {
    if ms == [] then None else Some(Normalised(ms[|ms| - 1]))
  }

  /** The measurement loop, which rewrites a null unit to "None" in the
      measurement itself before sending it, and leaves its loop variable
      bound to the last measurement. */
  method BuildMeasurements(ms: seq<Measurement>) returns (props: seq<PropertyRecord>, local: Option<Measurement>)
    ensures props == MapSeq(MeasurementProperty, ms)
    ensures local == MeasurementLocal(ms)
  {
    props := [];
    local := None;
    for i := 0 to |ms|
      invariant props == MapSeq(MeasurementProperty, ms[..i])
      invariant local == MeasurementLocal(ms[..i])
    {
      var m := ms[i];
      if m.unit == None {
        m := m.(unit := Some(NoneUnit));
      }
      local := Some(m);
      MapSeqSnoc(MeasurementProperty, ms[..i], ms[i]);
      assert ms[..i + 1] == ms[..i] + [ms[i]];
      props := props + [PropertyRecord(m.name, m.dataType, MeasurementType(m.unit.value, m.forwardConfigState))];
    }
    assert ms[..|ms|] == ms;
  }

  /** The transform loop, with its inner variable loop. */
  method BuildTransforms(ts: seq<Transform>) returns (props: seq<PropertyRecord>)
    ensures props == MapSeq(TransformProperty, ts)
  {
    props := [];
    for i := 0 to |ts|
      invariant props == MapSeq(TransformProperty, ts[..i])
    {
      var t := ts[i];
      var variables := BuildVariables(t.variables);
      var record := PropertyRecord(t.name, t.dataType,
                      TransformType(t.unit, t.expression, variables,
                                    t.computeLocation, t.forwardConfigState));
      assert record == TransformProperty(t);
      MapSeqSnoc(TransformProperty, ts[..i], t);
      assert ts[..i + 1] == ts[..i] + [t];
      props := props + [record];
    }
    assert ts[..|ts|] == ts;
  }

  /** The metric loop: the window gets an `offset` only when one is set. */
  method BuildMetrics(xs: seq<Metric>) returns (props: seq<PropertyRecord>)
    ensures props == MapSeq(MetricProperty, xs)
  {
    props := [];
    for i := 0 to |xs|
      invariant props == MapSeq(MetricProperty, xs[..i])
    {
      var x := xs[i];
      var variables := BuildVariables(x.variables);
      var window := if x.offset != None then TumblingWindow(x.interval, x.offset)
                    else TumblingWindow(x.interval, None);
      assert window == TumblingWindow(x.interval, x.offset);
      var record := PropertyRecord(x.name, x.dataType,
                      MetricType(x.unit, x.expression, variables, window, x.computeLocation));
      assert record == MetricProperty(x);
      MapSeqSnoc(MetricProperty, xs[..i], x);
      assert xs[..i + 1] == xs[..i] + [x];
      props := props + [record];
    }
    assert xs[..|xs|] == xs;
  }

  /** The property list of `create_asset_model`: the four loops append to
      one list in the order attributes, measurements, transforms, metrics. */
  method BuildPropertyValues(model: ModelDefinition) returns (props: seq<PropertyRecord>)
    ensures props == PropertyValues(model)
  {
    var attributes := BuildAttributes(model.attributes);
    var measurements, _ := BuildMeasurements(model.measurements);
    var transforms := BuildTransforms(model.transforms);
    var metrics := BuildMetrics(model.metrics);
    props := attributes + measurements + transforms + metrics;
  }

  // ----- the list as written -----

  /** The transform loop's state as written: the local `measurement` and
      the records built so far. */
  datatype TransformState = TransformState(measurement: Option<Measurement>, props: seq<PropertyRecord>)

  /** One transform as written. After its variables, the source tests the
      unit of `measurement`, the variable the measurement loop left behind,
      and rewrites it when null; an unbound name raises `UnboundLocalError`,
      which no handler catches. The record itself is the transform's own. */
  function TransformStepAsWritten(st: TransformState, t: Transform): (r: Result<TransformState>)
    ensures r.Failure? <==> st.measurement.None?
    ensures r.Success? ==> r.value.props == st.props + [TransformProperty(t)]
  {
    match st.measurement
    case None => Failure(UnboundLocal("measurement"))
    case Some(m) => Success(TransformState(Some(Normalised(m)), st.props + [TransformProperty(t)]))
  }

  /** The transform loop as written, starting from the local `local`. */
  function TransformsAsWritten(local: Option<Measurement>, ts: seq<Transform>): Result<TransformState> {
    if ts == [] then Success(TransformState(local, []))
    else
      match TransformsAsWritten(local, ts[..|ts| - 1])
      case Failure(f) => Failure(f)
      case Success(st) => TransformStepAsWritten(st, ts[|ts| - 1])
  }

  /** Once a transform has raised, the later transforms do not run. */
  lemma {:induction false} TransformsFailureStays(local: Option<Measurement>, ts: seq<Transform>, k: nat)
    requires k <= |ts| && TransformsAsWritten(local, ts[..k]).Failure?
    ensures TransformsAsWritten(local, ts) == TransformsAsWritten(local, ts[..k])
  {
    if k < |ts| {
      assert ts[..|ts| - 1][..k] == ts[..k];
      TransformsFailureStays(local, ts[..|ts| - 1], k);
    } else {
      assert ts[..k] == ts;
    }
  }

  /** With `measurement` bound to a measurement whose unit is set, the loop
      as written never raises, leaves the local as it found it, and builds
      every transform's own record in order. */
  lemma {:induction false} TransformsBound(m: Measurement, ts: seq<Transform>)
    requires m.unit.Some?
    ensures TransformsAsWritten(Some(m), ts) == Success(TransformState(Some(m), MapSeq(TransformProperty, ts)))
  {
    if ts != [] {
      TransformsBound(m, ts[..|ts| - 1]);
    }
  }

  /** With `measurement` unbound, the first transform raises. */
  lemma {:induction false} TransformsUnbound(ts: seq<Transform>)
    requires ts != []
    ensures TransformsAsWritten(None, ts) == Failure(UnboundLocal("measurement"))
  {
    if |ts| > 1 {
      TransformsUnbound(ts[..|ts| - 1]);
    } else {
      assert ts[..0] == [];
    }
  }

  /** The transform loop as the source writes it. */
  method BuildTransformsAsWritten(local: Option<Measurement>, ts: seq<Transform>)
    returns (r: Result<TransformState>)
    ensures r == TransformsAsWritten(local, ts)
  {
    var measurement := local;
    var props := [];
    assert ts[..0] == [];
    for i := 0 to |ts|
      invariant TransformsAsWritten(local, ts[..i]) == Success(TransformState(measurement, props))
    {
      assert ts[..i + 1][..i] == ts[..i];
      var t := ts[i];
      var variables := BuildVariables(t.variables);
      if measurement.None? {
        TransformsFailureStays(local, ts, i + 1);
        return Failure(UnboundLocal("measurement"));
      }
      if measurement.value.unit == None {
        measurement := Some(measurement.value.(unit := Some(NoneUnit)));
      }
      var record := PropertyRecord(t.name, t.dataType,
                      TransformType(t.unit, t.expression, variables,
                                    t.computeLocation, t.forwardConfigState));
      assert record == TransformProperty(t);
      props := props + [record];
    }
    assert ts[..|ts|] == ts;
    r := Success(TransformState(measurement, props));
  }

  /** The property list as the source computes it: the transform loop reads
      the local the measurement loop left, and metrics are built only when
      it did not raise. */
  function PropertyValuesAsWritten(model: ModelDefinition): Result<seq<PropertyRecord>> {
    match TransformsAsWritten(MeasurementLocal(model.measurements), model.transforms)
    case Failure(f) => Failure(f)
    case Success(st) =>
      Success(MapSeq(AttributeProperty, model.attributes) + MapSeq(MeasurementProperty, model.measurements)
              + st.props + MapSeq(MetricProperty, model.metrics))
  }

  /** As written, building the list raises `UnboundLocalError` on
      `measurement` exactly when the model has transforms but no
      measurements; otherwise it gives the corrected list. */
  lemma PropertyValuesAsWrittenSpec(model: ModelDefinition)
    ensures PropertyValuesAsWritten(model).Failure? <==> model.measurements == [] && model.transforms != []
    ensures PropertyValuesAsWritten(model).Failure? ==>
              PropertyValuesAsWritten(model).fault == UnboundLocal("measurement")
    ensures PropertyValuesAsWritten(model).Success? ==> PropertyValuesAsWritten(model).value == PropertyValues(model)
  {
    var local := MeasurementLocal(model.measurements);
    if local.Some? {
      TransformsBound(local.value, model.transforms);
    } else if model.transforms != [] {
      TransformsUnbound(model.transforms);
    }
  }

  /** The property list of `create_asset_model` as written. */
  method BuildPropertyValuesAsWritten(model: ModelDefinition) returns (r: Result<seq<PropertyRecord>>)
    ensures r == PropertyValuesAsWritten(model)
  {
    var attributes := BuildAttributes(model.attributes);
    var measurements, measurement := BuildMeasurements(model.measurements);
    var transforms := BuildTransformsAsWritten(measurement, model.transforms);
    if transforms.Failure? {
      return Failure(transforms.fault);
    }
    var metrics := BuildMetrics(model.metrics);
    r := Success(attributes + measurements + transforms.value.props + metrics);
  }

  /** A model with one transform and no measurement makes the source fail,
      though every transform field it needs is present. */
  lemma TransformWithoutMeasurementFails()
    ensures var t := Transform("Power", "DOUBLE", Some("W"), "2 * v", [Variable("v", "speed")],
                               "CLOUD", "DISABLED");
            var model := ModelDefinition("Pump", "", [], [], [t], []);
            PropertyValuesAsWritten(model) == Failure(UnboundLocal("measurement")) &&
            |PropertyValues(model)| == 1
  {
    var t := Transform("Power", "DOUBLE", Some("W"), "2 * v", [Variable("v", "speed")],
                       "CLOUD", "DISABLED");
    TransformsUnbound([t]);
  }

  // ----- create_asset_model -----

  /** The create-asset-model request issued for one definition. */
  datatype CreateModelRequest = CreateModelRequest(
    assetModelName: string, assetModelDescription: string, properties: seq<PropertyRecord>)

  /** The create call of `create_asset_model` for a built property list,
      answered by `reply`: on success the new id is recorded under
      "asset_models" and `{name: id}` returned; on any client error an
      empty object is returned and the manifest is left alone. */
  method SubmitModel(store: Store, model: ModelDefinition, props: seq<PropertyRecord>, reply: CreateReply)
    returns (request: CreateModelRequest, created: map<string, Id>)
    requires AssetModelsKey in store.resources
    modifies store`resources
    ensures request == CreateModelRequest(model.modelName, model.modelDescription, props)
    ensures reply.Created? ==>
              created == map[model.modelName := reply.id] &&
              store.resources == old(store.resources)[AssetModelsKey :=
                                   old(store.resources)[AssetModelsKey] + [reply.id]]
    ensures reply.Rejected? ==> created == map[] && store.resources == old(store.resources)
  {
    request := CreateModelRequest(model.modelName, model.modelDescription, props);
    created := map[];
    if reply.Created? {
      store.AddResourcesElement(AssetModelsKey, reply.id);
      created := map[model.modelName := reply.id];
    }
  }

  /** `create_asset_model` with the transform loop corrected: builds the
      property list, issues the create call, and records what it created. */
  method CreateAssetModel(store: Store, model: ModelDefinition, reply: CreateReply)
    returns (request: CreateModelRequest, created: map<string, Id>)
    requires AssetModelsKey in store.resources
    modifies store`resources
    ensures request == CreateModelRequest(model.modelName, model.modelDescription, PropertyValues(model))
    ensures reply.Created? ==>
              created == map[model.modelName := reply.id] &&
              store.resources == old(store.resources)[AssetModelsKey :=
                                   old(store.resources)[AssetModelsKey] + [reply.id]]
    ensures reply.Rejected? ==> created == map[] && store.resources == old(store.resources)
  {
    var props := BuildPropertyValues(model);
    request, created := SubmitModel(store, model, props, reply);
  }

  /** `create_asset_model` as written: a model with transforms and no
      measurements raises before its create call is issued, so nothing is
      requested or recorded; any other model is created as by the
      corrected builder. */
  method CreateAssetModelAsWritten(store: Store, model: ModelDefinition, reply: CreateReply)
    returns (request: Option<CreateModelRequest>, r: Result<map<string, Id>>)
    requires AssetModelsKey in store.resources
    modifies store`resources
    ensures model.measurements == [] && model.transforms != [] ==>
              request.None? && r == Failure(UnboundLocal("measurement")) &&
              store.resources == old(store.resources)
    ensures !(model.measurements == [] && model.transforms != []) ==>
              && request == Some(CreateModelRequest(model.modelName, model.modelDescription, PropertyValues(model)))
              && (reply.Created? ==>
                    r == Success(map[model.modelName := reply.id]) &&
                    store.resources == old(store.resources)[AssetModelsKey :=
                                         old(store.resources)[AssetModelsKey] + [reply.id]])
              && (reply.Rejected? ==> r == Success(map[]) && store.resources == old(store.resources))
  {
    var built := BuildPropertyValuesAsWritten(model);
    PropertyValuesAsWrittenSpec(model);
    if built.Failure? {
      return None, Failure(built.fault);
    }
    var sent, created := SubmitModel(store, model, built.value, reply);
    request := Some(sent);
    r := Success(created);
  }

  /** The fault one model's worker raises under `build`. */
  function ModelFault(model: ModelDefinition, build: Build): Option<Fault> {
    if build.Corrected? then None
    else
      match PropertyValuesAsWritten(model)
      case Failure(f) => Some(f)
      case Success(_) => None
  }

  /** The corrected worker never raises; the worker as written raises
      `UnboundLocalError` on `measurement` exactly for a model with
      transforms and no measurements. */
  lemma ModelFaultSpec(model: ModelDefinition, build: Build)
    ensures ModelFault(model, build).Some? <==>
              build.AsWritten? && model.measurements == [] && model.transforms != []
    ensures ModelFault(model, build).Some? ==> ModelFault(model, build).value == UnboundLocal("measurement")
  {
    PropertyValuesAsWrittenSpec(model);
  }
}
