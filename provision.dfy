/** The CREATE flow: asset models, then assets, then the model hierarchy,
    then the asset hierarchy. Each stage hands the next the merged
    `{name: id}` object of what it created. The worker pools become
    sequential loops over the definitions; a stage whose worker raises
    aborts the run after all its workers ran. Every stage takes the
    `Build` whose workers it composes, so the flow as written and the
    corrected flow are the same code over different workers. */
module Provision {
  import opened Common
  import opened Seqs
  import opened Manifest
  import opened ModelBuilder
  import opened AssetBuilder
  import opened Hierarchy

  /** `{k: v for item in items for k, v in item.items() if v}`: later items
      win on a repeated key. Every value is a create response, which is
      never empty, so the `if v` filter keeps everything. */
  function Merge(items: seq<map<string, Id>>): (r: map<string, Id>)
    ensures items != [] ==>
              forall k :: k in items[|items| - 1] ==> k in r && r[k] == items[|items| - 1][k]
  {
    if items == [] then map[]
    else
      var n := |items| - 1;
      Merge(items[..n]) + items[n]
  }

  /** Every key of the merge comes from some item. */
  lemma {:induction false} MergeKeysFromItems(items: seq<map<string, Id>>, k: string)
    requires k in Merge(items)
    ensures exists i :: 0 <= i < |items| && k in items[i]
  {
    var n := |items| - 1;
    if k !in items[n] {
      MergeKeysFromItems(items[..n], k);
      var i :| 0 <= i < n && k in items[..n][i];
      assert k in items[i];
    }
  }

  /** Every key of every item is in the merge. */
  lemma {:induction false} MergeHasEveryKey(items: seq<map<string, Id>>, i: nat, k: string)
    requires i < |items| && k in items[i]
    ensures k in Merge(items)
  {
    var n := |items| - 1;
    if i < n {
      MergeHasEveryKey(items[..n], i, k);
    }
  }

  /** The merge holds, for each key, the value of the last item holding it. */
  lemma {:induction false} MergeLastWins(items: seq<map<string, Id>>, i: nat, k: string)
    requires i < |items| && k in items[i]
    requires forall j :: i < j < |items| ==> k !in items[j]
    ensures k in Merge(items) && Merge(items)[k] == items[i][k]
  {
    var n := |items| - 1;
    if i < n {
      MergeLastWins(items[..n], i, k);
    }
  }

  /** Merging one more item is the map union with that item. */
  lemma MergeSnoc(items: seq<map<string, Id>>, item: map<string, Id>)
    ensures Merge(items + [item]) == Merge(items) + item
  {
    assert (items + [item])[..|items|] == items;
  }

  /** Updating a key twice keeps the second value. */
  lemma UpdateTwice(m: map<string, seq<Id>>, k: string, a: seq<Id>, b: seq<Id>)
    ensures m[k := a][k := b] == m[k := b]
  {
  }

  // ---- faults ----

  /** The fault the pool re-raises for a stage: the first worker fault in
      definition order. */
  function FirstFault(faults: seq<Option<Fault>>): Option<Fault> {
    if faults == [] then None
    else
      var before := FirstFault(faults[..|faults| - 1]);
      if before.Some? then before else faults[|faults| - 1]
  }

  /** A stage fails exactly when some worker raised, and then with the fault
      of the first worker that did. */
  lemma {:induction false} FirstFaultSpec(faults: seq<Option<Fault>>)
    ensures FirstFault(faults).None? <==> forall i :: 0 <= i < |faults| ==> faults[i].None?
    ensures FirstFault(faults).Some? ==>
              exists i :: 0 <= i < |faults| && faults[i] == FirstFault(faults) &&
                          forall j :: 0 <= j < i ==> faults[j].None?
  {
    if faults != [] {
      var n := |faults| - 1;
      FirstFaultSpec(faults[..n]);
      assert forall i :: 0 <= i < n ==> faults[..n][i] == faults[i];
      if FirstFault(faults[..n]).Some? {
        var i :| 0 <= i < n && faults[..n][i] == FirstFault(faults[..n]) &&
                 forall j :: 0 <= j < i ==> faults[..n][j].None?;
        assert faults[i] == FirstFault(faults);
      }
    }
  }

  /** Appending one worker's fault. */
  lemma FirstFaultSnoc(faults: seq<Option<Fault>>, f: Option<Fault>)
    ensures FirstFault(faults + [f]) == if FirstFault(faults).Some? then FirstFault(faults) else f
  {
    assert (faults + [f])[..|faults|] == faults;
  }

  // ---- asset models ----

  /** Whether a model's worker of the given build reaches its create call:
      the worker as written raises before it for a model with transforms
      and no measurements. */
  predicate Reaches(model: ModelDefinition, build: Build) {
    build.Corrected? || model.measurements != [] || model.transforms == []
  }

  /** What one `create_asset_model` worker returns when it does not raise. */
  function ModelCreation(model: ModelDefinition, reply: CreateReply, build: Build): map<string, Id> {
    if Reaches(model, build) && reply.Created? then map[model.modelName := reply.id] else map[]
  }

  function ModelCreations(models: seq<ModelDefinition>, replies: seq<CreateReply>, build: Build)
    : (r: seq<map<string, Id>>)
    requires |replies| == |models|
    ensures |r| == |models|
    ensures forall i :: 0 <= i < |models| ==> r[i] == ModelCreation(models[i], replies[i], build)
  {
    if models == [] then []
    else
      var n := |models| - 1;
      ModelCreations(models[..n], replies[..n], build) + [ModelCreation(models[n], replies[n], build)]
  }

  /** The fault of each model's worker, in definition order. */
  function ModelFaults(models: seq<ModelDefinition>, build: Build): (r: seq<Option<Fault>>)
    ensures |r| == |models|
    ensures forall i :: 0 <= i < |models| ==> r[i] == ModelFault(models[i], build)
  {
    if models == [] then [] else ModelFaults(models[..|models| - 1], build) + [ModelFault(models[|models| - 1], build)]
  }

  /** The corrected model stage never fails; as written it fails exactly
      when some model has transforms and no measurements, with
      `UnboundLocalError` on `measurement`. */
  lemma ModelsStageFault(models: seq<ModelDefinition>, build: Build)
    ensures FirstFault(ModelFaults(models, build)).Some? <==>
              build.AsWritten? &&
              exists i :: 0 <= i < |models| && models[i].measurements == [] && models[i].transforms != []
    ensures FirstFault(ModelFaults(models, build)).Some? ==>
              FirstFault(ModelFaults(models, build)).value == UnboundLocal("measurement")
  {
    var faults := ModelFaults(models, build);
    FirstFaultSpec(faults);
    forall i | 0 <= i < |models| {
      ModelFaultSpec(models[i], build);
    }
    if FirstFault(faults).Some? {
      var i :| 0 <= i < |faults| && faults[i] == FirstFault(faults) && forall j :: 0 <= j < i ==> faults[j].None?;
      assert models[i].measurements == [] && models[i].transforms != [];
    }
  }

  /** The ids recorded under "asset_models": those the create calls
      returned, for the models whose worker reached its create call. */
  function CreatedIds(models: seq<ModelDefinition>, replies: seq<CreateReply>, build: Build): seq<Id>
    requires |replies| == |models|
  {
    if models == [] then []
    else
      var n := |models| - 1;
      CreatedIds(models[..n], replies[..n], build)
        + (if Reaches(models[n], build) && replies[n].Created? then [replies[n].id] else [])
  }

  /** The recorded model ids are exactly the ids the issued create calls
      returned. */
  lemma {:induction false} CreatedIdsMembers(models: seq<ModelDefinition>, replies: seq<CreateReply>,
                                             build: Build, x: Id)
    requires |replies| == |models|
    ensures x in CreatedIds(models, replies, build) <==>
              exists i :: 0 <= i < |models| && Reaches(models[i], build) && replies[i] == Created(x)
  {
    if models != [] {
      var n := |models| - 1;
      CreatedIdsMembers(models[..n], replies[..n], build, x);
      if exists i :: 0 <= i < n && Reaches(models[..n][i], build) && replies[..n][i] == Created(x) {
        var i :| 0 <= i < n && Reaches(models[..n][i], build) && replies[..n][i] == Created(x);
        assert models[i] == models[..n][i] && replies[i] == Created(x);
      }
      if exists i :: 0 <= i < |models| && Reaches(models[i], build) && replies[i] == Created(x) {
        var i :| 0 <= i < |models| && Reaches(models[i], build) && replies[i] == Created(x);
        if i < n {
          assert models[..n][i] == models[i] && replies[..n][i] == Created(x);
        }
      }
    }
  }

  /** A model name is in the merged object exactly when some model of that
      name was created. */
  lemma ModelsStageKeys(models: seq<ModelDefinition>, replies: seq<CreateReply>, build: Build, name: string)
    requires |replies| == |models|
    ensures name in Merge(ModelCreations(models, replies, build)) <==>
              exists i :: 0 <= i < |models| && models[i].modelName == name &&
                          Reaches(models[i], build) && replies[i].Created?
  {
    var items := ModelCreations(models, replies, build);
    if name in Merge(items) {
      MergeKeysFromItems(items, name);
      var i :| 0 <= i < |items| && name in items[i];
      assert models[i].modelName == name && replies[i].Created?;
    }
    if exists i :: 0 <= i < |models| && models[i].modelName == name &&
                   Reaches(models[i], build) && replies[i].Created? {
      var i :| 0 <= i < |models| && models[i].modelName == name &&
               Reaches(models[i], build) && replies[i].Created?;
      MergeHasEveryKey(items, i, name);
    }
  }

  /** A created model name maps to the id of the last model of that name
      that was created. */
  lemma ModelsStageLastWins(models: seq<ModelDefinition>, replies: seq<CreateReply>, build: Build, i: nat)
    requires |replies| == |models| && i < |models| && replies[i].Created? && Reaches(models[i], build)
    requires forall j :: i < j < |models| && replies[j].Created? && Reaches(models[j], build) ==>
               models[j].modelName != models[i].modelName
    ensures var merged := Merge(ModelCreations(models, replies, build));
            models[i].modelName in merged && merged[models[i].modelName] == replies[i].id
  {
    MergeLastWins(ModelCreations(models, replies, build), i, models[i].modelName);
  }

  /** How the functions of the asset-model stage grow by one model. */
  lemma ModelStageSnoc(models: seq<ModelDefinition>, replies: seq<CreateReply>, build: Build, i: nat)
    requires |replies| == |models| && i < |models|
    ensures CreatedIds(models[..i + 1], replies[..i + 1], build)
         == CreatedIds(models[..i], replies[..i], build)
            + (if Reaches(models[i], build) && replies[i].Created? then [replies[i].id] else [])
    ensures ModelCreations(models[..i + 1], replies[..i + 1], build)
         == ModelCreations(models[..i], replies[..i], build) + [ModelCreation(models[i], replies[i], build)]
    ensures ModelFaults(models[..i + 1], build) == ModelFaults(models[..i], build) + [ModelFault(models[i], build)]
  {
    assert models[..i + 1][..i] == models[..i];
    assert replies[..i + 1][..i] == replies[..i];
  }

  /** One `create_asset_model` worker of the given build. */
  method RunModel(store: Store, model: ModelDefinition, reply: CreateReply, build: Build)
    returns (created: map<string, Id>, fault: Option<Fault>)
    requires AssetModelsKey in store.resources
    modifies store`resources
    ensures fault == ModelFault(model, build)
    ensures created == ModelCreation(model, reply, build)
    ensures store.resources == old(store.resources)[AssetModelsKey := old(store.resources)[AssetModelsKey]
              + (if Reaches(model, build) && reply.Created? then [reply.id] else [])]
  {
    ModelFaultSpec(model, build);
    if build.Corrected? {
      var _, made := CreateAssetModel(store, model, reply);
      created, fault := made, None;
    } else {
      var _, made := CreateAssetModelAsWritten(store, model, reply);
      created := if made.Success? then made.value else map[];
      fault := if made.Failure? then Some(made.fault) else None;
    }
    if !(Reaches(model, build) && reply.Created?) {
      assert old(store.resources)[AssetModelsKey] + [] == old(store.resources)[AssetModelsKey];
    }
  }

  /** The recorded ids after one more model, over a list already held. */
  lemma CreatedIdsExtend(held: seq<Id>, models: seq<ModelDefinition>, replies: seq<CreateReply>,
                         build: Build, i: nat)
    requires |replies| == |models| && i < |models|
    ensures held + CreatedIds(models[..i + 1], replies[..i + 1], build)
         == held + CreatedIds(models[..i], replies[..i], build)
            + (if Reaches(models[i], build) && replies[i].Created? then [replies[i].id] else [])
  {
    assert models[..i + 1][..i] == models[..i];
    assert replies[..i + 1][..i] == replies[..i];
  }

  /** One model of the asset-model stage: `list`, `merged` and `fault` are
      the recorded ids, the merged object and the first fault after the
      first `i` models, and the results are the same after the first
      `i + 1`. */
  method AttemptModel(store: Store, models: seq<ModelDefinition>, replies: seq<CreateReply>, build: Build,
                      i: nat, ghost base: map<string, seq<Id>>, ghost list: seq<Id>,
                      merged: map<string, Id>, fault: Option<Fault>)
    returns (ghost list': seq<Id>, merged': map<string, Id>, fault': Option<Fault>)
    requires |replies| == |models| && i < |models|
    requires AssetModelsKey in base && store.resources == base[AssetModelsKey := list]
    requires list == base[AssetModelsKey] + CreatedIds(models[..i], replies[..i], build)
    requires merged == Merge(ModelCreations(models[..i], replies[..i], build))
    requires fault == FirstFault(ModelFaults(models[..i], build))
    modifies store`resources
    ensures store.resources == base[AssetModelsKey := list']
    ensures list' == base[AssetModelsKey] + CreatedIds(models[..i + 1], replies[..i + 1], build)
    ensures merged' == Merge(ModelCreations(models[..i + 1], replies[..i + 1], build))
    ensures fault' == FirstFault(ModelFaults(models[..i + 1], build))
  {
    ModelStageSnoc(models, replies, build, i);
    var created, failed := RunModel(store, models[i], replies[i], build);
    list' := list + (if Reaches(models[i], build) && replies[i].Created? then [replies[i].id] else []);
    CreatedIdsExtend(base[AssetModelsKey], models, replies, build, i);
    UpdateTwice(base, AssetModelsKey, list, list');
    MergeSnoc(ModelCreations(models[..i], replies[..i], build), created);
    merged' := merged + created;
    FirstFaultSnoc(ModelFaults(models[..i], build), failed);
    fault' := if fault.None? then failed else fault;
  }

  /** The asset-model stage: every model definition is tried, each created
      id is recorded under "asset_models" in definition order, and the
      stage fails with the first worker fault, or yields the merged
      `{model_name: id}` object. */
  method CreateAssetModels(store: Store, models: seq<ModelDefinition>, replies: seq<CreateReply>, build: Build)
    returns (r: Result<map<string, Id>>)
    requires AssetModelsKey in store.resources && |replies| == |models|
    modifies store`resources
    ensures store.resources == old(store.resources)[AssetModelsKey :=
                                 old(store.resources)[AssetModelsKey] + CreatedIds(models, replies, build)]
    ensures r == if FirstFault(ModelFaults(models, build)).Some?
                 then Failure(FirstFault(ModelFaults(models, build)).value)
                 else Success(Merge(ModelCreations(models, replies, build)))
  {
    var merged := map[];
    var fault: Option<Fault> := None;
    ghost var list := old(store.resources)[AssetModelsKey];
    assert models[..0] == [] && replies[..0] == [];
    for i := 0 to |models|
      invariant store.resources == old(store.resources)[AssetModelsKey := list]
      invariant list == old(store.resources)[AssetModelsKey] + CreatedIds(models[..i], replies[..i], build)
      invariant merged == Merge(ModelCreations(models[..i], replies[..i], build))
      invariant fault == FirstFault(ModelFaults(models[..i], build))
    {
      list, merged, fault := AttemptModel(store, models, replies, build, i, old(store.resources),
                                          list, merged, fault);
    }
    assert models[..|models|] == models;
    assert replies[..|replies|] == replies;
    r := if fault.Some? then Failure(fault.value) else Success(merged);
  }

  // ---- assets ----

  ghost predicate AllValid(replies: seq<AssetReplies>) {
    forall i :: 0 <= i < |replies| ==> ValidReplies(replies[i])
  }

  /** What one `create_asset` worker returns when it does not raise. */
  function AssetCreation(asset: AssetDefinition, assetModels: map<string, Id>,
                         replies: AssetReplies, build: Build): map<string, Id>
    requires ValidReplies(replies)
  {
    if AssetFault(asset, assetModels, replies, build).None? && replies.create.Created?
    then map[asset.assetName := replies.create.id] else map[]
  }

  function AssetCreations(assets: seq<AssetDefinition>, assetModels: map<string, Id>,
                          replies: seq<AssetReplies>, build: Build): (r: seq<map<string, Id>>)
    requires |replies| == |assets| && AllValid(replies)
    ensures |r| == |assets|
    ensures forall i :: 0 <= i < |assets| ==> r[i] == AssetCreation(assets[i], assetModels, replies[i], build)
  {
    if assets == [] then []
    else
      var n := |assets| - 1;
      AssetCreations(assets[..n], assetModels, replies[..n], build)
        + [AssetCreation(assets[n], assetModels, replies[n], build)]
  }

  /** The fault of each asset's worker, in definition order. */
  function AssetFaults(assets: seq<AssetDefinition>, assetModels: map<string, Id>,
                       replies: seq<AssetReplies>, build: Build): (r: seq<Option<Fault>>)
    requires |replies| == |assets| && AllValid(replies)
    ensures |r| == |assets|
    ensures forall i :: 0 <= i < |assets| ==> r[i] == AssetFault(assets[i], assetModels, replies[i], build)
  {
    if assets == [] then []
    else
      var n := |assets| - 1;
      AssetFaults(assets[..n], assetModels, replies[..n], build)
        + [AssetFault(assets[n], assetModels, replies[n], build)]
  }

  /** The ids recorded under "assets": those of the assets whose model
      resolved and whose create call succeeded, in order. A worker as
      written that raises on `val` has recorded its asset already. */
  function AssetIds(assets: seq<AssetDefinition>, assetModels: map<string, Id>,
                    replies: seq<AssetReplies>): seq<Id>
    requires |replies| == |assets|
  {
    if assets == [] then []
    else
      var n := |assets| - 1;
      AssetIds(assets[..n], assetModels, replies[..n])
        + (if assets[n].modelName in assetModels && replies[n].create.Created?
           then [replies[n].create.id] else [])
  }

  /** The recorded asset ids are exactly the ids returned for assets whose
      model resolved. */
  lemma {:induction false} AssetIdsMembers(assets: seq<AssetDefinition>, assetModels: map<string, Id>,
                                           replies: seq<AssetReplies>, x: Id)
    requires |replies| == |assets|
    ensures x in AssetIds(assets, assetModels, replies) <==>
              exists i :: 0 <= i < |assets| && assets[i].modelName in assetModels &&
                          replies[i].create == Created(x)
  {
    if assets != [] {
      var n := |assets| - 1;
      AssetIdsMembers(assets[..n], assetModels, replies[..n], x);
      if exists i :: 0 <= i < n && assets[..n][i].modelName in assetModels &&
                     replies[..n][i].create == Created(x) {
        var i :| 0 <= i < n && assets[..n][i].modelName in assetModels &&
                 replies[..n][i].create == Created(x);
        assert assets[i].modelName in assetModels && replies[i].create == Created(x);
      }
      if exists i :: 0 <= i < |assets| && assets[i].modelName in assetModels &&
                     replies[i].create == Created(x) {
        var i :| 0 <= i < |assets| && assets[i].modelName in assetModels &&
                 replies[i].create == Created(x);
        if i < n {
          assert assets[..n][i] == assets[i] && replies[..n][i] == replies[i];
        }
      }
    }
  }

  /** The corrected asset stage fails exactly when some asset's model is
      missing, and then with the `KeyError` of the first such asset. Listing
      and describe calls always answer in this model. */
  lemma MissingModelSpec(assets: seq<AssetDefinition>, assetModels: map<string, Id>,
                         replies: seq<AssetReplies>)
    requires |replies| == |assets| && AllValid(replies)
    ensures var fault := FirstFault(AssetFaults(assets, assetModels, replies, Corrected));
            && (fault.None? <==> forall i :: 0 <= i < |assets| ==> assets[i].modelName in assetModels)
            && (fault.Some? ==>
                  exists i :: 0 <= i < |assets| && assets[i].modelName !in assetModels &&
                              (forall j :: 0 <= j < i ==> assets[j].modelName in assetModels) &&
                              fault.value == MissingAssetModel(assets[i].modelName))
  {
    var faults := AssetFaults(assets, assetModels, replies, Corrected);
    forall i | 0 <= i < |assets|
      ensures faults[i] == if assets[i].modelName in assetModels then None
                           else Some(MissingAssetModel(assets[i].modelName))
    {
      AssetFaultSpec(assets[i], assetModels, replies[i], Corrected);
    }
    MissingFaultsSpec(faults, assets, assetModels);
  }

  /** The first fault of a sequence that holds a `KeyError` exactly where
      an asset's model is missing. */
  lemma MissingFaultsSpec(faults: seq<Option<Fault>>, assets: seq<AssetDefinition>, assetModels: map<string, Id>)
    requires |faults| == |assets|
    requires forall i :: 0 <= i < |assets| ==>
               faults[i] == if assets[i].modelName in assetModels then None
                            else Some(MissingAssetModel(assets[i].modelName))
    ensures var fault := FirstFault(faults);
            && (fault.None? <==> forall i :: 0 <= i < |assets| ==> assets[i].modelName in assetModels)
            && (fault.Some? ==>
                  exists i :: 0 <= i < |assets| && assets[i].modelName !in assetModels &&
                              (forall j :: 0 <= j < i ==> assets[j].modelName in assetModels) &&
                              fault.value == MissingAssetModel(assets[i].modelName))
  {
    FirstFaultSpec(faults);
  }

  /** The asset stage as written fails exactly when some asset's worker
      raises: its model is missing, its create was rejected, or its first
      attribute whose name is discovered has no supported type. Listing and
      describe calls always answer in this model. */
  lemma AsWrittenAssetsFault(assets: seq<AssetDefinition>, assetModels: map<string, Id>,
                             replies: seq<AssetReplies>)
    requires |replies| == |assets| && AllValid(replies)
    ensures FirstFault(AssetFaults(assets, assetModels, replies, AsWritten)).Some? <==>
              exists i :: 0 <= i < |assets| &&
                          (|| assets[i].modelName !in assetModels
                           || replies[i].create.Rejected?
                           || FirstMatchUntyped(assets[i].attributes, Properties(replies[i])))
  {
    var faults := AssetFaults(assets, assetModels, replies, AsWritten);
    FirstFaultSpec(faults);
    forall i | 0 <= i < |assets| {
      AssetFaultSpec(assets[i], assetModels, replies[i], AsWritten);
    }
  }

  /** An asset name is in the merged object exactly when some asset of that
      name had a worker that did not raise and a create call that
      succeeded. */
  lemma AssetsStageKeys(assets: seq<AssetDefinition>, assetModels: map<string, Id>,
                        replies: seq<AssetReplies>, build: Build, name: string)
    requires |replies| == |assets| && AllValid(replies)
    ensures name in Merge(AssetCreations(assets, assetModels, replies, build)) <==>
              exists i :: 0 <= i < |assets| && assets[i].assetName == name &&
                          AssetFault(assets[i], assetModels, replies[i], build).None? &&
                          replies[i].create.Created?
  {
    var items := AssetCreations(assets, assetModels, replies, build);
    if name in Merge(items) {
      MergeKeysFromItems(items, name);
      var i :| 0 <= i < |items| && name in items[i];
      assert assets[i].assetName == name;
    }
    if exists i :: 0 <= i < |assets| && assets[i].assetName == name &&
                   AssetFault(assets[i], assetModels, replies[i], build).None? &&
                   replies[i].create.Created? {
      var i :| 0 <= i < |assets| && assets[i].assetName == name &&
               AssetFault(assets[i], assetModels, replies[i], build).None? &&
               replies[i].create.Created?;
      MergeHasEveryKey(items, i, name);
    }
  }

  /** How each function of the asset stage grows by one asset. */
  lemma AssetStageSnoc(assets: seq<AssetDefinition>, assetModels: map<string, Id>,
                       replies: seq<AssetReplies>, build: Build, i: nat)
    requires |replies| == |assets| && AllValid(replies) && i < |assets|
    ensures AssetIds(assets[..i + 1], assetModels, replies[..i + 1])
         == AssetIds(assets[..i], assetModels, replies[..i])
            + (if assets[i].modelName in assetModels && replies[i].create.Created?
               then [replies[i].create.id] else [])
    ensures AssetCreations(assets[..i + 1], assetModels, replies[..i + 1], build)
         == AssetCreations(assets[..i], assetModels, replies[..i], build)
            + [AssetCreation(assets[i], assetModels, replies[i], build)]
    ensures AssetFaults(assets[..i + 1], assetModels, replies[..i + 1], build)
         == AssetFaults(assets[..i], assetModels, replies[..i], build)
            + [AssetFault(assets[i], assetModels, replies[i], build)]
  {
    assert assets[..i + 1][..i] == assets[..i];
    assert replies[..i + 1][..i] == replies[..i];
  }

  /** The recorded ids after one more asset, over a list already held. */
  lemma AssetIdsExtend(held: seq<Id>, assets: seq<AssetDefinition>, assetModels: map<string, Id>,
                       replies: seq<AssetReplies>, i: nat)
    requires |replies| == |assets| && i < |assets|
    ensures held + AssetIds(assets[..i + 1], assetModels, replies[..i + 1])
         == held + AssetIds(assets[..i], assetModels, replies[..i])
            + (if assets[i].modelName in assetModels && replies[i].create.Created?
               then [replies[i].create.id] else [])
  {
    assert assets[..i + 1][..i] == assets[..i];
    assert replies[..i + 1][..i] == replies[..i];
  }

  /** One asset of the asset stage: `list`, `merged` and `fault` are the
      recorded ids, the merged object and the first fault after the first
      `i` assets, and the results are the same after the first `i + 1`. */
  method AttemptAsset(store: Store, assets: seq<AssetDefinition>, assetModels: map<string, Id>,
                      replies: seq<AssetReplies>, build: Build, i: nat, ghost base: map<string, seq<Id>>,
                      ghost list: seq<Id>, merged: map<string, Id>, fault: Option<Fault>)
    returns (ghost list': seq<Id>, merged': map<string, Id>, fault': Option<Fault>)
    requires |replies| == |assets| && AllValid(replies) && i < |assets|
    requires AssetsKey in base && store.resources == base[AssetsKey := list]
    requires list == base[AssetsKey] + AssetIds(assets[..i], assetModels, replies[..i])
    requires merged == Merge(AssetCreations(assets[..i], assetModels, replies[..i], build))
    requires fault == FirstFault(AssetFaults(assets[..i], assetModels, replies[..i], build))
    modifies store`resources
    ensures store.resources == base[AssetsKey := list']
    ensures list' == base[AssetsKey] + AssetIds(assets[..i + 1], assetModels, replies[..i + 1])
    ensures merged' == Merge(AssetCreations(assets[..i + 1], assetModels, replies[..i + 1], build))
    ensures fault' == FirstFault(AssetFaults(assets[..i + 1], assetModels, replies[..i + 1], build))
  {
    AssetStageSnoc(assets, assetModels, replies, build, i);
    var created, failed;
    created, failed, list' := RunAsset(store, assets[i], assetModels, replies[i], build, base, list);
    AssetIdsExtend(base[AssetsKey], assets, assetModels, replies, i);
    MergeSnoc(AssetCreations(assets[..i], assetModels, replies[..i], build), created);
    merged' := merged + created;
    FirstFaultSnoc(AssetFaults(assets[..i], assetModels, replies[..i], build), failed);
    fault' := if fault.None? then failed else fault;
  }

  /** One `create_asset` worker of the given build, with `list` the assets
      list recorded so far over the rest of the resources file `base`. */
  method RunAsset(store: Store, asset: AssetDefinition, assetModels: map<string, Id>,
                  replies: AssetReplies, build: Build, ghost base: map<string, seq<Id>>, ghost list: seq<Id>)
    returns (created: map<string, Id>, fault: Option<Fault>, ghost next: seq<Id>)
    requires store.resources == base[AssetsKey := list] && ValidReplies(replies)
    modifies store`resources
    ensures store.resources == base[AssetsKey := next]
    ensures next == list + (if asset.modelName in assetModels && replies.create.Created?
                            then [replies.create.id] else [])
    ensures created == AssetCreation(asset, assetModels, replies, build)
    ensures fault == AssetFault(asset, assetModels, replies, build)
  {
    var outcome;
    if build.Corrected? {
      outcome := CreateAsset(store, asset, assetModels, replies);
    } else {
      outcome := CreateAssetAsWritten(store, asset, assetModels, replies);
    }
    next := list;
    if asset.modelName in assetModels && replies.create.Created? {
      UpdateTwice(base, AssetsKey, list, list + [replies.create.id]);
      next := list + [replies.create.id];
    }
    created := if outcome.Success? then outcome.value.created else map[];
    fault := if outcome.Failure? then Some(outcome.fault) else None;
  }

  /** The asset stage: every asset definition is tried (a worker pool runs
      them all); each created id is recorded under "assets" in definition
      order. A worker fault is re-raised by the pool and aborts the run;
      otherwise the stage yields the merged `{asset_name: id}` object. */
  method CreateAssets(store: Store, assets: seq<AssetDefinition>, assetModels: map<string, Id>,
                      replies: seq<AssetReplies>, build: Build)
    returns (r: Result<map<string, Id>>)
    requires AssetsKey in store.resources && |replies| == |assets| && AllValid(replies)
    modifies store`resources
    ensures store.resources == old(store.resources)[AssetsKey :=
                                 old(store.resources)[AssetsKey] + AssetIds(assets, assetModels, replies)]
    ensures r == if FirstFault(AssetFaults(assets, assetModels, replies, build)).Some?
                 then Failure(FirstFault(AssetFaults(assets, assetModels, replies, build)).value)
                 else Success(Merge(AssetCreations(assets, assetModels, replies, build)))
  {
    var merged := map[];
    var fault: Option<Fault> := None;
    ghost var list := old(store.resources)[AssetsKey];
    assert assets[..0] == [] && replies[..0] == [];
    for i := 0 to |assets|
      invariant store.resources == old(store.resources)[AssetsKey := list]
      invariant list == old(store.resources)[AssetsKey] + AssetIds(assets[..i], assetModels, replies[..i])
      invariant merged == Merge(AssetCreations(assets[..i], assetModels, replies[..i], build))
      invariant fault == FirstFault(AssetFaults(assets[..i], assetModels, replies[..i], build))
    {
      list, merged, fault := AttemptAsset(store, assets, assetModels, replies, build, i, old(store.resources),
                                          list, merged, fault);
    }
    assert assets[..|assets|] == assets;
    assert replies[..|replies|] == replies;
    r := if fault.Some? then Failure(fault.value) else Success(merged);
  }

  // ---- the whole flow ----

  /** The four configuration files CREATE reads. */
  datatype Config = Config(models: seq<ModelDefinition>, assets: seq<AssetDefinition>,
                           modelHierarchy: seq<ModelHierarchyDef>,
                           assetHierarchy: seq<AssetHierarchyDef>)

  /** The remote replies CREATE meets, one per definition of each stage. */
  datatype CreateReplies = CreateReplies(models: seq<CreateReply>, assets: seq<AssetReplies>,
                                         updates: seq<UpdateReply>)

  ghost predicate FitsConfig(config: Config, replies: CreateReplies) {
    && |replies.models| == |config.models|
    && |replies.assets| == |config.assets|
    && AllValid(replies.assets)
    && |replies.updates| == |config.modelHierarchy|
  }

  /** The objects the first two stages write: `asset_models.json` and
      `assets.json`. */
  datatype Resources = Resources(assetModels: map<string, Id>, assets: map<string, Id>)

  /** The objects CREATE writes between its stages: `asset_models.json`,
      `assets.json` and `hierarchy_id_mapping.json`. */
  datatype Deployment = Deployment(assetModels: map<string, Id>, assets: map<string, Id>,
                                   hierarchyIds: map<string, Id>)

  /** The fault the asset-model stage re-raises, if any. */
  function ModelStageFault(config: Config, build: Build): Option<Fault> {
    FirstFault(ModelFaults(config.models, build))
  }

  /** The model object the asset-model stage hands on. */
  function ModelsOf(config: Config, replies: CreateReplies, build: Build): map<string, Id>
    requires |replies.models| == |config.models|
  {
    Merge(ModelCreations(config.models, replies.models, build))
  }

  /** The fault the asset stage re-raises, if any. */
  function AssetStageFault(config: Config, replies: CreateReplies, build: Build): Option<Fault>
    requires FitsConfig(config, replies)
  {
    FirstFault(AssetFaults(config.assets, ModelsOf(config, replies, build), replies.assets, build))
  }

  /** The asset object the asset stage hands on. */
  function AssetsOf(config: Config, replies: CreateReplies, build: Build): map<string, Id>
    requires FitsConfig(config, replies)
  {
    Merge(AssetCreations(config.assets, ModelsOf(config, replies, build), replies.assets, build))
  }

  /** The resources file after the first two stages: the ids of the
      models created, and of the assets created when the asset stage ran. */
  function ResourcesFile(config: Config, replies: CreateReplies, build: Build): map<string, seq<Id>>
    requires FitsConfig(config, replies)
  {
    map[AssetModelsKey := CreatedIds(config.models, replies.models, build),
        AssetsKey := if ModelStageFault(config, build).Some? then []
                     else AssetIds(config.assets, ModelsOf(config, replies, build), replies.assets)]
  }

  /** Filling both lists of a fresh resources file. */
  lemma FreshResources(first: string, second: string, x: seq<Id>, y: seq<Id>)
    requires first != second
    ensures var blank := map[first := [], second := []];
            var filled := blank[first := blank[first] + x];
            && filled == map[first := x, second := []]
            && filled[second := filled[second] + y] == map[first := x, second := y]
  {
    assert [] + x == x && [] + y == y;
  }

  /** The first two CREATE stages: the resources file is started afresh,
      then the asset models are created and, unless that stage fails, the
      assets. */
  method CreateResources(store: Store, config: Config, replies: CreateReplies, build: Build)
    returns (r: Result<Resources>)
    requires FitsConfig(config, replies)
    modifies store`resources
    ensures store.resources == ResourcesFile(config, replies, build)
    ensures ModelStageFault(config, build).Some? ==> r == Failure(ModelStageFault(config, build).value)
    ensures ModelStageFault(config, build).None? ==>
              r == if AssetStageFault(config, replies, build).Some?
                   then Failure(AssetStageFault(config, replies, build).value)
                   else Success(Resources(ModelsOf(config, replies, build), AssetsOf(config, replies, build)))
  {
    store.InitiateResources();
    var assetModels := CreateAssetModels(store, config.models, replies.models, build);
    assert |AssetModelsKey| != |AssetsKey|;
    FreshResources(AssetModelsKey, AssetsKey, CreatedIds(config.models, replies.models, build),
                   if assetModels.Success?
                   then AssetIds(config.assets, assetModels.value, replies.assets) else []);
    if assetModels.Failure? {
      return Failure(assetModels.fault);
    }
    var assets := CreateAssets(store, config.assets, assetModels.value, replies.assets, build);
    if assets.Failure? {
      return Failure(assets.fault);
    }
    r := Success(Resources(assetModels.value, assets.value));
  }

  /** The last two CREATE stages: the parent-model file is started afresh,
      then the model hierarchy and the asset hierarchy are built; the
      association file keeps what it held before. */
  method CreateHierarchies(store: Store, config: Config, updates: seq<UpdateReply>,
                           assetModels: map<string, Id>, assets: map<string, Id>)
    returns (r: Result<map<string, Id>>)
    requires |updates| == |config.modelHierarchy|
    modifies store`parentModels, store`assetHierarchyMapping
    ensures var pass := Pass(config.modelHierarchy, assetModels, updates);
            && store.parentModels == pass.state.parents
            && (pass.fault.Some? ==>
                  r == Failure(pass.fault.value) &&
                  store.assetHierarchyMapping == old(store.assetHierarchyMapping))
            && (pass.fault.None? ==>
                  var resolution := ResolveAll(config.assetHierarchy, pass.state.mapping, assets);
                  && store.assetHierarchyMapping == old(store.assetHierarchyMapping) + resolution.records
                  && r == (if resolution.fault.Some? then Failure(resolution.fault.value)
                           else Success(pass.state.mapping)))
  {
    store.InitiateParentModels();
    var hierarchyIds := CreateModelHierarchy(store, config.modelHierarchy, assetModels, updates);
    if hierarchyIds.Failure? {
      return Failure(hierarchyIds.fault);
    }
    var associations := CreateAssetHierarchy(store, config.assetHierarchy, hierarchyIds.value, assets);
    if associations.Failure? {
      return Failure(associations.fault);
    }
    r := hierarchyIds;
  }

  /** The CREATE flow of the given build. The resources file is started
      afresh and ends with the ids the stages that ran created. A fault in
      a stage aborts the run with that fault and later stages do not run:
      the parent-model file is started afresh, and the hierarchies built,
      only after both resource stages succeed. */
  method Create(store: Store, config: Config, replies: CreateReplies, build: Build)
    returns (r: Result<Deployment>)
    requires FitsConfig(config, replies)
    modifies store`resources, store`parentModels, store`assetHierarchyMapping
    ensures store.resources == ResourcesFile(config, replies, build)
    ensures ModelStageFault(config, build).Some? ==>
              && r == Failure(ModelStageFault(config, build).value)
              && store.parentModels == old(store.parentModels)
              && store.assetHierarchyMapping == old(store.assetHierarchyMapping)
    ensures ModelStageFault(config, build).None? && AssetStageFault(config, replies, build).Some? ==>
              && r == Failure(AssetStageFault(config, replies, build).value)
              && store.parentModels == old(store.parentModels)
              && store.assetHierarchyMapping == old(store.assetHierarchyMapping)
    ensures ModelStageFault(config, build).None? && AssetStageFault(config, replies, build).None? ==>
              var models, assets := ModelsOf(config, replies, build), AssetsOf(config, replies, build);
              var pass := Pass(config.modelHierarchy, models, replies.updates);
              && store.parentModels == pass.state.parents
              && (pass.fault.Some? ==>
                    r == Failure(pass.fault.value) &&
                    store.assetHierarchyMapping == old(store.assetHierarchyMapping))
              && (pass.fault.None? ==>
                    var resolution := ResolveAll(config.assetHierarchy, pass.state.mapping, assets);
                    && store.assetHierarchyMapping == old(store.assetHierarchyMapping) + resolution.records
                    && r == (if resolution.fault.Some? then Failure(resolution.fault.value)
                             else Success(Deployment(models, assets, pass.state.mapping))))
  {
    var resources := CreateResources(store, config, replies, build);
    if resources.Failure? {
      return Failure(resources.fault);
    }
    var hierarchyIds := CreateHierarchies(store, config, replies.updates,
                                          resources.value.assetModels, resources.value.assets);
    if hierarchyIds.Failure? {
      return Failure(hierarchyIds.fault);
    }
    r := Success(Deployment(resources.value.assetModels, resources.value.assets, hierarchyIds.value));
  }
}
