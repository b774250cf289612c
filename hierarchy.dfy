/** The hierarchy linker. The model pass gives parent models their named
    child slots and reads back the ids the service assigned to them, filling
    the logical-id to hierarchy-id map; the asset pass uses that map to
    associate concrete parent and child assets. */
module Hierarchy {
  import opened Common
  import opened Manifest

  // ----- model pass: configuration and replies -----

  datatype ChildModel = ChildModel(name: string, childAssetModelName: string, logicalId: string)

  datatype ModelHierarchyDef = ModelHierarchyDef(parentAssetModelName: string,
                                                 childModels: seq<ChildModel>)

  /** One `{name, childAssetModelId}` entry of the update request. */
  datatype HierarchyRequest = HierarchyRequest(name: string, childAssetModelId: Id)

  /** One `assetModelHierarchies` entry of a describe reply. */
  datatype HierarchySlot = HierarchySlot(name: string, id: Id)

  /** The remote outcome of one parent's update: the update call fails, or
      it succeeds and the describe call that follows fails, or that describe
      call returns the parent's hierarchies. */
  datatype UpdateReply = UpdateRejected | DescribeRejected | Described(hierarchies: seq<HierarchySlot>)

  // ----- model pass: the child slots sent with the update -----

  /** The slots requested for a parent's children, or the first child model
      name the resolved model map lacks (`KeyError`). */
  function ChildSlots(children: seq<ChildModel>, assetModels: map<string, Id>)
    : (r: Result<seq<HierarchyRequest>>)
    ensures r.Success? <==> forall j :: 0 <= j < |children| ==> children[j].childAssetModelName in assetModels
    ensures r.Success? ==> (|r.value| == |children| &&
              forall j :: 0 <= j < |children| ==>
                r.value[j] == HierarchyRequest(children[j].name, assetModels[children[j].childAssetModelName]))
  {
    if children == [] then Success([])
    else
      var n := |children| - 1;
      var c := children[n];
      match ChildSlots(children[..n], assetModels)
      case Failure(f) => Failure(f)
      case Success(slots) =>
        if c.childAssetModelName !in assetModels then Failure(MissingAssetModel(c.childAssetModelName))
        else Success(slots + [HierarchyRequest(c.name, assetModels[c.childAssetModelName])])
  }

  /** The loop that builds the update's hierarchy list. */
  method BuildChildSlots(children: seq<ChildModel>, assetModels: map<string, Id>)
    returns (r: Result<seq<HierarchyRequest>>)
    ensures r == ChildSlots(children, assetModels)
  {
    var slots := [];
    for j := 0 to |children|
      invariant ChildSlots(children[..j], assetModels) == Success(slots)
    {
      var c := children[j];
      assert children[..j + 1][..j] == children[..j];
      if c.childAssetModelName !in assetModels {
        FailureStays(children, assetModels, j + 1);
        return Failure(MissingAssetModel(c.childAssetModelName));
      }
      slots := slots + [HierarchyRequest(c.name, assetModels[c.childAssetModelName])];
    }
    assert children[..|children|] == children;
    r := Success(slots);
  }

  /** Once a prefix of the children fails to resolve, every longer prefix
      fails with the same fault. */
  lemma {:induction false} FailureStays(children: seq<ChildModel>, assetModels: map<string, Id>, j: nat)
    requires j <= |children| && ChildSlots(children[..j], assetModels).Failure?
    ensures ChildSlots(children, assetModels) == ChildSlots(children[..j], assetModels)
    decreases |children| - j
  {
    if j < |children| {
      assert children[..j + 1][..j] == children[..j];
      FailureStays(children, assetModels, j + 1);
    } else {
      assert children[..j] == children;
    }
  }

  // ----- model pass: mapping logical ids to hierarchy ids -----

  /** The position of the first described hierarchy named `name`, or
      `|slots|` when none is. */
  function FirstSlotIndex(slots: seq<HierarchySlot>, name: string): (k: nat)
    ensures k <= |slots|
    ensures k < |slots| ==> slots[k].name == name
    ensures forall j :: 0 <= j < k ==> slots[j].name != name
  {
    if slots == [] then 0
    else if slots[0].name == name then 0
    else 1 + FirstSlotIndex(slots[1..], name)
  }

  /** The mapping after the children are matched against the described
      hierarchies, one child after another. */
  function MapChildren(mapping: map<string, Id>, children: seq<ChildModel>,
                       slots: seq<HierarchySlot>): map<string, Id>
  {
    if children == [] then mapping
    else
      var n := |children| - 1;
      var before := MapChildren(mapping, children[..n], slots);
      var k := FirstSlotIndex(slots, children[n].name);
      if k < |slots| then before[children[n].logicalId := slots[k].id] else before
  }

  /** The nested loops that fill the mapping: for each child, the first
      described hierarchy with the child's name supplies the id; the inner
      loop breaks at that match. */
  method MapHierarchyIds(mapping: map<string, Id>, children: seq<ChildModel>,
                         slots: seq<HierarchySlot>)
    returns (r: map<string, Id>)
    ensures r == MapChildren(mapping, children, slots)
  {
    r := mapping;
    for i := 0 to |children|
      invariant r == MapChildren(mapping, children[..i], slots)
    {
      var child := children[i];
      assert children[..i + 1][..i] == children[..i];
      var k := 0;
      while k < |slots| && slots[k].name != child.name
        invariant k <= |slots|
        invariant forall j :: 0 <= j < k ==> slots[j].name != child.name
      {
        k := k + 1;
      }
      assert k == FirstSlotIndex(slots, child.name);
      if k < |slots| {
        r := r[child.logicalId := slots[k].id];
      }
    }
    assert children[..|children|] == children;
  }

  predicate DistinctLogicalIds(children: seq<ChildModel>) {
    forall i, j :: 0 <= i < j < |children| ==> children[i].logicalId != children[j].logicalId
  }

  function LogicalIds(children: seq<ChildModel>): set<string> {
    set c | c in children :: c.logicalId
  }

  /** `r` and `mapping` agree on key `x`. */
  ghost predicate SameEntry(r: map<string, Id>, mapping: map<string, Id>, x: string) {
    (x in r <==> x in mapping) && (x in mapping ==> r[x] == mapping[x])
  }

  /** The entry for child `c`: the id of the first described hierarchy named
      like `c`, or, when none is, whatever `mapping` held. */
  ghost predicate MappedToFirstMatch(r: map<string, Id>, mapping: map<string, Id>,
                                     slots: seq<HierarchySlot>, c: ChildModel) {
    var k := FirstSlotIndex(slots, c.name);
    if k < |slots| then c.logicalId in r && r[c.logicalId] == slots[k].id
    else SameEntry(r, mapping, c.logicalId)
  }

  /** With distinct logical ids, each child whose name matches a described
      hierarchy maps its logical id to the first such hierarchy's id; a child
      without a match adds no entry; every other key keeps its value. */
  lemma {:induction false} MapChildrenEntries(mapping: map<string, Id>, children: seq<ChildModel>,
                                              slots: seq<HierarchySlot>)
    requires DistinctLogicalIds(children)
    ensures forall i :: 0 <= i < |children| ==>
              MappedToFirstMatch(MapChildren(mapping, children, slots), mapping, slots, children[i])
    ensures forall x :: x !in LogicalIds(children) ==>
              SameEntry(MapChildren(mapping, children, slots), mapping, x)
  {
    if children != [] {
      var n := |children| - 1;
      var pre := children[..n];
      assert DistinctLogicalIds(pre);
      MapChildrenEntries(mapping, pre, slots);
      var before := MapChildren(mapping, pre, slots);
      var r := MapChildren(mapping, children, slots);
      var xn := children[n].logicalId;
      assert forall x :: x != xn ==> SameEntry(r, before, x);
      forall i | 0 <= i < |children|
        ensures MappedToFirstMatch(r, mapping, slots, children[i])
      {
        if i < n {
          assert pre[i] == children[i];
          assert MappedToFirstMatch(before, mapping, slots, children[i]);
          assert SameEntry(r, before, children[i].logicalId);
        } else {
          assert xn !in LogicalIds(pre);
          assert SameEntry(before, mapping, xn);
        }
      }
      assert LogicalIds(pre) <= LogicalIds(children) by {
        forall c | c in pre ensures c in children { }
      }
      forall x | x !in LogicalIds(children)
        ensures SameEntry(r, mapping, x)
      {
        assert x != xn;
      }
    }
  }

  // ----- model pass: one parent after another -----

  datatype PassState = PassState(parents: seq<Id>, mapping: map<string, Id>)

  /** The effect of one model-hierarchy definition: a parent with no child
      slots is left alone; otherwise, once every child model resolves, a
      successful update records the parent and, when the describe call that
      follows succeeds, maps its children. */
  function PassStep(st: PassState, d: ModelHierarchyDef, assetModels: map<string, Id>,
                    reply: UpdateReply): Result<PassState>
  {
    if d.parentAssetModelName !in assetModels then Failure(MissingAssetModel(d.parentAssetModelName))
    else if d.childModels == [] then Success(st)
    else
      var parentId := assetModels[d.parentAssetModelName];
      match ChildSlots(d.childModels, assetModels)
      case Failure(f) => Failure(f)
      case Success(_) =>
        match reply
        case UpdateRejected => Success(st)
        case DescribeRejected => Success(PassState(st.parents + [parentId], st.mapping))
        case Described(hs) =>
          Success(PassState(st.parents + [parentId], MapChildren(st.mapping, d.childModels, hs)))
  }

  /** A rejected update records nothing and maps nothing; an accepted one
      records exactly the parent model, and only a successful describe
      changes the mapping. */
  lemma UpdateGatesRecording(st: PassState, d: ModelHierarchyDef, assetModels: map<string, Id>,
                             reply: UpdateReply)
    ensures var r := PassStep(st, d, assetModels, reply);
            && (r.Success? <==> d.parentAssetModelName in assetModels &&
                                forall j :: 0 <= j < |d.childModels| ==>
                                  d.childModels[j].childAssetModelName in assetModels)
            && (r.Success? && (reply.UpdateRejected? || d.childModels == []) ==> r.value == st)
            && (r.Success? && !reply.UpdateRejected? && d.childModels != [] ==>
                  r.value.parents == st.parents + [assetModels[d.parentAssetModelName]])
            && (r.Success? && !reply.Described? ==> r.value.mapping == st.mapping)
  {
    if d.parentAssetModelName in assetModels && d.childModels == [] {
      assert ChildSlots([], assetModels).Success?;
    }
  }

  /** The state after a prefix of the definitions and, if a lookup failed,
      the fault that stopped the pass. */
  datatype PassResult = PassResult(state: PassState, fault: Option<Fault>)

  function Pass(defs: seq<ModelHierarchyDef>, assetModels: map<string, Id>, replies: seq<UpdateReply>)
    : PassResult
    requires |replies| == |defs|
  {
    if defs == [] then PassResult(PassState([], map[]), None)
    else
      var n := |defs| - 1;
      var before := Pass(defs[..n], assetModels, replies[..n]);
      if before.fault.Some? then before
      else match PassStep(before.state, defs[n], assetModels, replies[n])
        case Failure(f) => PassResult(before.state, Some(f))
        case Success(st) => PassResult(st, None)
  }

  /** Once a fault stops the pass, the later definitions change nothing. */
  lemma {:induction false} PassStopsAtFault(defs: seq<ModelHierarchyDef>, assetModels: map<string, Id>,
                                            replies: seq<UpdateReply>, i: nat)
    requires |replies| == |defs| && i <= |defs|
    requires Pass(defs[..i], assetModels, replies[..i]).fault.Some?
    ensures Pass(defs, assetModels, replies) == Pass(defs[..i], assetModels, replies[..i])
    decreases |defs| - i
  {
    if i < |defs| {
      assert defs[..i + 1][..i] == defs[..i];
      assert replies[..i + 1][..i] == replies[..i];
      PassStopsAtFault(defs, assetModels, replies, i + 1);
    } else {
      assert defs[..i] == defs && replies[..i] == replies;
    }
  }

  /** `create_model_hierarchy`: `replies[i]` is the remote outcome of the
      update for `defs[i]`. Returns the hierarchy-id mapping, or the
      `KeyError` that aborts the run; the parents recorded before a fault
      stay recorded. */
  method CreateModelHierarchy(store: Store, defs: seq<ModelHierarchyDef>,
                              assetModels: map<string, Id>, replies: seq<UpdateReply>)
    returns (r: Result<map<string, Id>>)
    requires |replies| == |defs|
    modifies store`parentModels
    ensures var p := Pass(defs, assetModels, replies);
            && store.parentModels == old(store.parentModels) + p.state.parents
            && r == (if p.fault.Some? then Failure(p.fault.value) else Success(p.state.mapping))
  {
    var mapping := map[];
    ghost var parents := [];
    for i := 0 to |defs|
      invariant Pass(defs[..i], assetModels, replies[..i]) == PassResult(PassState(parents, mapping), None)
      invariant store.parentModels == old(store.parentModels) + parents
    {
      PassSnoc(defs, assetModels, replies, i);
      var step, added := ConfigureParent(store, defs[i], assetModels, replies[i], parents, mapping);
      if step.Failure? {
        PassStopsAtFault(defs, assetModels, replies, i + 1);
        return Failure(step.fault);
      }
      assert old(store.parentModels) + parents + added == old(store.parentModels) + (parents + added);
      parents := parents + added;
      mapping := step.value;
    }
    assert defs[..|defs|] == defs && replies[..|replies|] == replies;
    r := Success(mapping);
  }

  /** Extending the definitions by one applies one `PassStep`. */
  lemma PassSnoc(defs: seq<ModelHierarchyDef>, assetModels: map<string, Id>,
                 replies: seq<UpdateReply>, i: nat)
    requires |replies| == |defs| && i < |defs|
    requires Pass(defs[..i], assetModels, replies[..i]).fault.None?
    ensures var before := Pass(defs[..i], assetModels, replies[..i]).state;
            Pass(defs[..i + 1], assetModels, replies[..i + 1])
            == match PassStep(before, defs[i], assetModels, replies[i])
               case Failure(f) => PassResult(before, Some(f))
               case Success(st) => PassResult(st, None)
  {
    assert defs[..i + 1][..i] == defs[..i];
    assert replies[..i + 1][..i] == replies[..i];
  }

  /** The body of the loop over model-hierarchy definitions for one parent:
      `parents` and `mapping` are what the pass has built so far. */
  method ConfigureParent(store: Store, d: ModelHierarchyDef, assetModels: map<string, Id>,
                         reply: UpdateReply, ghost parents: seq<Id>, mapping: map<string, Id>)
    returns (r: Result<map<string, Id>>, ghost added: seq<Id>)
    modifies store`parentModels
    ensures var step := PassStep(PassState(parents, mapping), d, assetModels, reply);
            && (r.Failure? <==> step.Failure?)
            && (r.Failure? ==> r.fault == step.fault && store.parentModels == old(store.parentModels))
            && (r.Success? ==>
                  && step.value == PassState(parents + added, r.value)
                  && store.parentModels == old(store.parentModels) + added)
  {
    added := [];
    if d.parentAssetModelName !in assetModels {
      return Failure(MissingAssetModel(d.parentAssetModelName)), added;
    }
    var parentId := assetModels[d.parentAssetModelName];
    r := Success(mapping);
    if d.childModels != [] {
      var slots := BuildChildSlots(d.childModels, assetModels);
      if slots.Failure? {
        return Failure(slots.fault), added;
      }
      match reply
      case UpdateRejected =>
      case DescribeRejected =>
        store.AddParentModelElement(parentId);
        added := [parentId];
      case Described(hs) =>
        store.AddParentModelElement(parentId);
        added := [parentId];
        var mapped := MapHierarchyIds(mapping, d.childModels, hs);
        r := Success(mapped);
    }
    assert parents + [] == parents;
  }

  // ----- asset pass -----

  datatype ChildAsset = ChildAsset(childAssetName: string, logicalId: string)

  datatype AssetHierarchyDef = AssetHierarchyDef(parentAssetName: string, childAssets: seq<ChildAsset>)

  /** The associations recorded for a prefix of the definitions and, if a
      lookup failed, the fault that stopped the pass. */
  datatype Resolution = Resolution(records: seq<Association>, fault: Option<Fault>)

  /** The association for one child: the hierarchy id is looked up first,
      then the child asset's id. */
  function ResolveChild(parentId: Id, c: ChildAsset, mapping: map<string, Id>, assets: map<string, Id>)
    : Result<Association>
  {
    if c.logicalId !in mapping then Failure(MissingHierarchyId(c.logicalId))
    else if c.childAssetName !in assets then Failure(MissingAsset(c.childAssetName))
    else Success(Association(parentId, mapping[c.logicalId], assets[c.childAssetName]))
  }

  function ResolveChildren(parentId: Id, children: seq<ChildAsset>, mapping: map<string, Id>,
                           assets: map<string, Id>): Resolution
  {
    if children == [] then Resolution([], None)
    else
      var n := |children| - 1;
      var before := ResolveChildren(parentId, children[..n], mapping, assets);
      if before.fault.Some? then before
      else match ResolveChild(parentId, children[n], mapping, assets)
        case Failure(f) => Resolution(before.records, Some(f))
        case Success(a) => Resolution(before.records + [a], None)
  }

  /** The parent asset is looked up before its children, even when it has
      none. */
  function ResolveAll(defs: seq<AssetHierarchyDef>, mapping: map<string, Id>, assets: map<string, Id>)
    : Resolution
  {
    if defs == [] then Resolution([], None)
    else
      var n := |defs| - 1;
      var before := ResolveAll(defs[..n], mapping, assets);
      if before.fault.Some? then before
      else if defs[n].parentAssetName !in assets then
        Resolution(before.records, Some(MissingAsset(defs[n].parentAssetName)))
      else
        var here := ResolveChildren(assets[defs[n].parentAssetName], defs[n].childAssets, mapping, assets);
        Resolution(before.records + here.records, here.fault)
  }

  /** Every name a definition mentions resolves. */
  ghost predicate Resolvable(d: AssetHierarchyDef, mapping: map<string, Id>, assets: map<string, Id>) {
    && d.parentAssetName in assets
    && forall j :: 0 <= j < |d.childAssets| ==>
         d.childAssets[j].logicalId in mapping && d.childAssets[j].childAssetName in assets
  }

  function ChildCount(defs: seq<AssetHierarchyDef>): nat {
    if defs == [] then 0 else ChildCount(defs[..|defs| - 1]) + |defs[|defs| - 1].childAssets|
  }

  /** Within one parent: no fault exactly when every child resolves, and
      then one association per child, in order. */
  lemma {:induction false} ResolveChildrenSpec(parentId: Id, children: seq<ChildAsset>,
                                               mapping: map<string, Id>, assets: map<string, Id>)
    ensures var r := ResolveChildren(parentId, children, mapping, assets);
            && (r.fault.None? <==> forall j :: 0 <= j < |children| ==>
                                     children[j].logicalId in mapping && children[j].childAssetName in assets)
            && (r.fault.None? ==> (|r.records| == |children| &&
                  forall j :: 0 <= j < |children| ==>
                    r.records[j] == Association(parentId, mapping[children[j].logicalId],
                                                assets[children[j].childAssetName])))
  {
    if children != [] {
      var n := |children| - 1;
      ResolveChildrenSpec(parentId, children[..n], mapping, assets);
    }
  }

  /** The pass faults exactly when some name fails to resolve; otherwise it
      records one association per child, each made of the parent's asset id,
      the mapped hierarchy id and the child's asset id. */
  lemma {:induction false} ResolveAllSpec(defs: seq<AssetHierarchyDef>, mapping: map<string, Id>,
                                          assets: map<string, Id>)
    ensures var r := ResolveAll(defs, mapping, assets);
            && (r.fault.None? <==> forall i :: 0 <= i < |defs| ==> Resolvable(defs[i], mapping, assets))
            && (r.fault.None? ==> |r.records| == ChildCount(defs))
            && (forall a :: a in r.records ==>
                  exists i, j :: 0 <= i < |defs| && 0 <= j < |defs[i].childAssets| &&
                    defs[i].parentAssetName in assets &&
                    defs[i].childAssets[j].logicalId in mapping &&
                    defs[i].childAssets[j].childAssetName in assets &&
                    a == Association(assets[defs[i].parentAssetName],
                                     mapping[defs[i].childAssets[j].logicalId],
                                     assets[defs[i].childAssets[j].childAssetName]))
  {
    if defs != [] {
      var n := |defs| - 1;
      var d := defs[n];
      ResolveAllSpec(defs[..n], mapping, assets);
      if d.parentAssetName in assets {
        ResolveChildrenSpec(assets[d.parentAssetName], d.childAssets, mapping, assets);
        ResolvedChildrenAreTriples(assets[d.parentAssetName], d.childAssets, mapping, assets);
      }
    }
  }

  /** Every association resolved for one parent is made of that parent's id
      and one child's ids. */
  lemma {:induction false} ResolvedChildrenAreTriples(parentId: Id, children: seq<ChildAsset>,
                                                      mapping: map<string, Id>, assets: map<string, Id>)
    ensures forall a :: a in ResolveChildren(parentId, children, mapping, assets).records ==>
              exists j :: 0 <= j < |children| &&
                children[j].logicalId in mapping && children[j].childAssetName in assets &&
                a == Association(parentId, mapping[children[j].logicalId], assets[children[j].childAssetName])
  {
    if children != [] {
      var n := |children| - 1;
      ResolvedChildrenAreTriples(parentId, children[..n], mapping, assets);
    }
  }

  /** The child loop of `create_asset_hierarchy` for one parent: each
      resolved association is appended to the association file. */
  method AssociateChildren(store: Store, parentId: Id, children: seq<ChildAsset>,
                           mapping: map<string, Id>, assets: map<string, Id>)
    returns (fault: Option<Fault>)
    modifies store`assetHierarchyMapping
    ensures var p := ResolveChildren(parentId, children, mapping, assets);
            store.assetHierarchyMapping == old(store.assetHierarchyMapping) + p.records &&
            fault == p.fault
  {
    ghost var here := [];
    for j := 0 to |children|
      invariant ResolveChildren(parentId, children[..j], mapping, assets) == Resolution(here, None)
      invariant store.assetHierarchyMapping == old(store.assetHierarchyMapping) + here
    {
      var c := children[j];
      assert children[..j + 1][..j] == children[..j];
      if c.logicalId !in mapping {
        ChildrenStopAtFault(parentId, children, mapping, assets, j + 1);
        return Some(MissingHierarchyId(c.logicalId));
      }
      var hierarchyId := mapping[c.logicalId];
      if c.childAssetName !in assets {
        ChildrenStopAtFault(parentId, children, mapping, assets, j + 1);
        return Some(MissingAsset(c.childAssetName));
      }
      var childId := assets[c.childAssetName];
      // the associate call's reply is only logged
      var element := Association(parentId, hierarchyId, childId);
      store.AddAssetHierarchyMappingElement(element);
      here := here + [element];
    }
    assert children[..|children|] == children;
    fault := None;
  }

  /** `create_asset_hierarchy`: every resolved association is appended to
      the association file, whatever the associate call answers. Returns
      the list the source returns, which it never fills, or the `KeyError`
      that aborts the run. */
  method CreateAssetHierarchy(store: Store, defs: seq<AssetHierarchyDef>,
                              mapping: map<string, Id>, assets: map<string, Id>)
    returns (r: Result<seq<Association>>)
    modifies store`assetHierarchyMapping
    ensures var p := ResolveAll(defs, mapping, assets);
            && store.assetHierarchyMapping == old(store.assetHierarchyMapping) + p.records
            && r == (if p.fault.Some? then Failure(p.fault.value) else Success([]))
  {
    ghost var recorded := [];
    for i := 0 to |defs|
      invariant ResolveAll(defs[..i], mapping, assets) == Resolution(recorded, None)
      invariant store.assetHierarchyMapping == old(store.assetHierarchyMapping) + recorded
    {
      ResolveAllSnoc(defs, mapping, assets, i);
      var fault, added := AssociateParent(store, defs[i], mapping, assets);
      assert old(store.assetHierarchyMapping) + recorded + added
          == old(store.assetHierarchyMapping) + (recorded + added);
      recorded := recorded + added;
      if fault.Some? {
        ResolveAllStopsAtFault(defs, mapping, assets, i + 1);
        return Failure(fault.value);
      }
    }
    assert defs[..|defs|] == defs;
    r := Success([]);
  }

  /** The body of the loop over asset-hierarchy definitions for one
      parent: its asset id is looked up, then its children are associated. */
  method AssociateParent(store: Store, d: AssetHierarchyDef, mapping: map<string, Id>,
                         assets: map<string, Id>)
    returns (fault: Option<Fault>, ghost added: seq<Association>)
    modifies store`assetHierarchyMapping
    ensures store.assetHierarchyMapping == old(store.assetHierarchyMapping) + added
    ensures d.parentAssetName !in assets ==>
              fault == Some(MissingAsset(d.parentAssetName)) && added == []
    ensures d.parentAssetName in assets ==>
              var here := ResolveChildren(assets[d.parentAssetName], d.childAssets, mapping, assets);
              fault == here.fault && added == here.records
  {
    if d.parentAssetName !in assets {
      assert old(store.assetHierarchyMapping) + [] == old(store.assetHierarchyMapping);
      return Some(MissingAsset(d.parentAssetName)), [];
    }
    var parentId := assets[d.parentAssetName];
    added := ResolveChildren(parentId, d.childAssets, mapping, assets).records;
    fault := AssociateChildren(store, parentId, d.childAssets, mapping, assets);
  }

  /** Extending the definitions by one resolves one more parent. */
  lemma ResolveAllSnoc(defs: seq<AssetHierarchyDef>, mapping: map<string, Id>,
                       assets: map<string, Id>, i: nat)
    requires i < |defs| && ResolveAll(defs[..i], mapping, assets).fault.None?
    ensures var before := ResolveAll(defs[..i], mapping, assets).records;
            var d := defs[i];
            ResolveAll(defs[..i + 1], mapping, assets)
            == if d.parentAssetName !in assets then
                 Resolution(before, Some(MissingAsset(d.parentAssetName)))
               else
                 var here := ResolveChildren(assets[d.parentAssetName], d.childAssets, mapping, assets);
                 Resolution(before + here.records, here.fault)
  {
    assert defs[..i + 1][..i] == defs[..i];
  }

  /** Once a fault stops the asset pass, the later definitions change nothing. */
  lemma {:induction false} ResolveAllStopsAtFault(defs: seq<AssetHierarchyDef>, mapping: map<string, Id>,
                                                  assets: map<string, Id>, i: nat)
    requires i <= |defs| && ResolveAll(defs[..i], mapping, assets).fault.Some?
    ensures ResolveAll(defs, mapping, assets) == ResolveAll(defs[..i], mapping, assets)
    decreases |defs| - i
  {
    if i < |defs| {
      assert defs[..i + 1][..i] == defs[..i];
      ResolveAllStopsAtFault(defs, mapping, assets, i + 1);
    } else {
      assert defs[..i] == defs;
    }
  }

  /** Once a fault stops one parent's children, the rest of its children
      change nothing. */
  lemma {:induction false} ChildrenStopAtFault(parentId: Id, children: seq<ChildAsset>,
                                               mapping: map<string, Id>, assets: map<string, Id>, j: nat)
    requires j <= |children| && ResolveChildren(parentId, children[..j], mapping, assets).fault.Some?
    ensures ResolveChildren(parentId, children, mapping, assets)
         == ResolveChildren(parentId, children[..j], mapping, assets)
    decreases |children| - j
  {
    if j < |children| {
      assert children[..j + 1][..j] == children[..j];
      ChildrenStopAtFault(parentId, children, mapping, assets, j + 1);
    } else {
      assert children[..j] == children;
    }
  }
}
