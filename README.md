# SiteWise infrastructure orchestrator — a Dafny model

`sw_infra.py` is a command-line tool with two modes. CREATE provisions an
industrial asset-modeling deployment on a remote service: asset models,
then assets against them, then the parent/child hierarchy between models,
then the associations between concrete assets. DELETE tears the deployment
down in the reverse order. Every mutation is recorded in a local
*manifest*, a set of small JSON files: `resources.json` (lists under
`"asset_models"` and `"assets"`), `parent_models.json` and
`asset_hierarchy_mapping.json`. Each manifest helper reads its file,
appends or removes one element, and writes the file back. DELETE uses the
manifest to know what to remove. An entry is removed only when its remote
delete succeeds, so a partial teardown can be run again.

The model is imperative where the source is:

- The manifest is a class `Manifest.Store`. Its fields are the three
  files. Its methods are the six helpers, with field-granular `modifies`
  frames.
- Each loop of the source is a `method` with its loop invariants. The
  method is proved against a specification function over the inputs, and
  the properties the source promises are lemmas about those functions.
- The remote service is not modelled as state. Each remote call's reply is
  a parameter ("reply script"): the create reply of each definition, the
  pages of a paginated listing, the update/describe outcome of each parent
  model, and one success flag per recorded entry of each teardown stage.
- The CREATE flow takes a `Build`. `AsWritten` composes the workers as the
  script writes them. These raise on a transform with no measurement
  (line 203), on a rejected asset create (line 393) and on an untyped first
  matched attribute (line 483). `Corrected` composes the workers with those
  three defects repaired (see "## Findings"). Both flows are proved: each
  stage re-raises the first worker fault, and the run stops there.

Modules, following the structure of the script:

| module | what it models |
|---|---|
| `Common` | ids, error codes, the faults that abort a run, create replies |
| `Seqs` | sequence helpers: `list.remove` (first occurrence), filtering by flags |
| `Manifest` | the manifest files and their six append/remove helpers |
| `ModelBuilder` | `create_asset_model`: the property list and the create call |
| `AssetBuilder` | `create_asset`: create, paginated property discovery, alias binding, attribute seeding |
| `Hierarchy` | `create_model_hierarchy` and `create_asset_hierarchy` |
| `Teardown` | the four delete walkers and the DELETE flow |
| `Provision` | the CREATE flow and the merging of worker results |

## Model

| member | source | states |
|---|---|---|
| Manifest.Store.AddResourcesElement | sw_infra.py:48-59 | the list under `key` gains `element` at its end; every other key keeps its list and no key is added |
| Manifest.Store.DeleteResourcesElement | sw_infra.py:65-76 | the first occurrence of `element` leaves the list under `key`: the multiset loses exactly one copy; the other keys are untouched; it demands that the element be present, since `list.remove` raises otherwise |
| Manifest.Store.AddParentModelElement | sw_infra.py:82-93 | the parent-model list gains the element at its end |
| Manifest.Store.DeleteParentModelElement | sw_infra.py:99-110 | the parent-model list loses the first occurrence of the element: one copy fewer in the multiset |
| Manifest.Store.AddAssetHierarchyMappingElement | sw_infra.py:116-126 | the association list gains the association at its end |
| Manifest.Store.DeleteAssetHierarchyMappingElement | sw_infra.py:132-142 | the association list loses the first occurrence of the association: one copy fewer in the multiset |
| Manifest.Store.InitiateResources | sw_infra.py:724-729 | the resources file holds exactly the two keys, each with an empty list |
| Manifest.Store.InitiateParentModels | sw_infra.py:785-786 | the parent-model file holds an empty list |
| Manifest.AddThenDeleteRestores | sw_infra.py:48-76 | appending an element absent from a list, then removing it, gives back the original resources exactly |
| Manifest.RoundTrip | sw_infra.py:48-76 | the same round trip through the two store methods leaves the store's resources unchanged |
| Seqs.RemoveFirst | sw_infra.py:72 | `list.remove` shortens the list by one and takes exactly one copy of the element out of its multiset |
| Seqs.RemoveFirstAfterPrefix | sw_infra.py:72 | when the element does not occur before a position, removing its first occurrence deletes exactly that position |
| Seqs.KeptAndRemoved | sw_infra.py:318-337 | splitting a list by success flags loses nothing: kept and removed entries together are the original multiset |
| Seqs.AllRemoved | sw_infra.py:318-337 | when every flag is set, nothing is kept and everything is removed |
| ModelBuilder.PropertyValuesLayout | sw_infra.py:153-278 | the property list has one record per attribute, then per measurement, then per transform, then per metric; its length is the sum of the four; the record at each position is the one built from the definition at that position of its group |
| ModelBuilder.PropertyKinds | sw_infra.py:153-278 | the record at a position has the kind of that position's group, in both directions |
| ModelBuilder.MeasurementUnit | sw_infra.py:173-178 | a measurement with a null unit is sent with the string "None"; any other unit is sent as configured |
| ModelBuilder.TransformUnit | sw_infra.py:205-208 | a transform is sent with its own configured unit; the "None" rewrite at lines 203-204 never touches it |
| ModelBuilder.MetricWindow | sw_infra.py:238-278 | the tumbling window carries the configured interval, and carries an offset exactly when the metric has one, with the same value |
| ModelBuilder.VariablesInOrder | sw_infra.py:195-202 | the variables of a transform and of a metric are sent in configured order, one for each, each naming the configured logical property id |
| ModelBuilder.BuildPropertyValues | sw_infra.py:153-278 | the four nested loops build exactly the laid-out property list; the lemmas above give its layout |
| ModelBuilder.MeasurementLocal | sw_infra.py:171-175 | the loop variable `measurement` is unbound exactly when there are no measurements; when bound, its unit is never null, since the loop rewrote it |
| ModelBuilder.BuildMeasurements | sw_infra.py:171-190 | the measurement loop builds one record per measurement, in order, with a null unit sent as "None"; it leaves `measurement` bound as `MeasurementLocal` states |
| ModelBuilder.TransformStepAsWritten | sw_infra.py:192-232 | as written, one transform raises exactly when `measurement` is unbound; otherwise it appends the transform's own record |
| ModelBuilder.TransformsBound | sw_infra.py:192-232 | with `measurement` bound, the transform loop as written never raises and builds every transform's own record, in order |
| ModelBuilder.TransformsUnbound | sw_infra.py:203 | with `measurement` unbound, the transform loop as written raises `UnboundLocalError` on `measurement` at the first transform |
| ModelBuilder.TransformsFailureStays | sw_infra.py:192-232 | once a transform raises, later transforms change nothing |
| ModelBuilder.BuildTransformsAsWritten | sw_infra.py:192-232 | the transform loop as written computes exactly its specification, stopping at the first raise |
| ModelBuilder.PropertyValuesAsWrittenSpec | sw_infra.py:153-278 | as written, building the list raises `UnboundLocalError` on `measurement` exactly when the model has transforms and no measurements; otherwise it gives the corrected list |
| ModelBuilder.BuildPropertyValuesAsWritten | sw_infra.py:153-278 | the four loops as written compute exactly that outcome; the measurement loop's local is handed to the transform loop |
| ModelBuilder.TransformWithoutMeasurementFails | sw_infra.py:203 | a model with one transform and no measurement raises `UnboundLocalError` as written; the corrected builder gives one property |
| ModelBuilder.SubmitModel | sw_infra.py:280-307 | the create request carries the model's name, description and the given property list; a created model's id is appended to `"asset_models"` and returned under the model name; a rejected create records nothing and returns `{}` |
| ModelBuilder.CreateAssetModel | sw_infra.py:148-311 | corrected build: the create request carries the model's name, description and property list; a created model's id is appended to `"asset_models"` and returned under the model name; a rejected create records nothing and returns `{}` |
| ModelBuilder.CreateAssetModelAsWritten | sw_infra.py:148-311 | as written: a model with transforms and no measurements raises `UnboundLocalError` before any request, and records nothing; any other model is requested and recorded as by the corrected build |
| ModelBuilder.ModelFaultSpec | sw_infra.py:203 | a model's worker raises exactly in the as-written build, for a model with transforms and no measurements, and then on `measurement` |
| AssetBuilder.ReturnElements | sw_infra.py:342-356 | one entry per summary of the page, in page order, each the describe reply for that summary |
| AssetBuilder.FinalPage | sw_infra.py:401 | the listing stops at the first reply without a continuation token; every earlier reply carried one |
| AssetBuilder.ListAssetProperties | sw_infra.py:389-410 | issues exactly the requests RequestsUpTo specifies for the pages up to the first reply without a token, and returns the described summaries of every fetched page, in page order |
| AssetBuilder.ListingRequests | sw_infra.py:392-407 | one request per fetched page, all with page size 250: the first without a token, each later one with the token of the reply before it, which is present up to the final page |
| AssetBuilder.RequestsUpToSpec | sw_infra.py:392-407 | the requests for the first n pages number n; the first carries no token and request j carries the token of page j - 1 |
| AssetBuilder.ListingStep | sw_infra.py:400-410 | fetching one more page adds one request, with the previous page's token, and appends that page's described summaries |
| AssetBuilder.DiscoveredIsDescribedSummaries | sw_infra.py:389-410 | the accumulated entries are the described summaries of all fetched pages concatenated in order: none is dropped, none is added |
| AssetBuilder.DiscoveryComplete | sw_infra.py:389-410 | an entry is discovered exactly when it describes a listed summary; with distinct ids and describe replies no entry is duplicated |
| AssetBuilder.TagValue | sw_infra.py:459-474 | strings, integers, floats and booleans get their own tag, and booleans never the integer tag; null and compound values get none (iff); a tagged value carries the literal it came from |
| AssetBuilder.TagUntagged | sw_infra.py:459-474 | tagging is the inverse of reading back the literal of a tagged value |
| AssetBuilder.FirstNamed | sw_infra.py:454-455 | the entry found is the first discovered entry with the searched name: no earlier entry has it; none is found exactly when no discovered entry has the name |
| AssetBuilder.FindNamed | sw_infra.py:455-498 | the inner loop that breaks at its first match finds the first discovered entry of the name |
| AssetBuilder.BindCallsShape | sw_infra.py:421-446 | each binding issues the alias update first and at most three calls. A second call (the time-series association) comes exactly when the update reports a conflicting operation. A third call comes exactly when that association also succeeded, and it repeats the first update: one retry, not a loop |
| AssetBuilder.BindingCallsTargets | sw_infra.py:415-449 | every call of the binding loop targets a property discovered under the name of a binding and carries that binding's alias |
| AssetBuilder.BindingCallsComplete | sw_infra.py:415-449 | every binding whose name is discovered gets its alias update, on the first property of that name, with the binding's alias and notification state |
| AssetBuilder.BindMeasurements | sw_infra.py:415-449 | the measurement loop issues exactly the calls of its specification, binding after binding |
| AssetBuilder.SeedWritesSound | sw_infra.py:452-499 | every attribute write carries the literal of some seed, to a property discovered under that seed's name |
| AssetBuilder.SeedWritesComplete | sw_infra.py:452-499 | every seed whose name is discovered and whose value has a tag is written, to the first property of that name |
| AssetBuilder.SeedAttributes | sw_infra.py:452-499 | the attribute loop issues exactly the corrected writes, in seed order |
| AssetBuilder.AsWrittenAgreesWhenTyped | sw_infra.py:452-499 | when every seed's value has a tag, the loop as written never raises and issues exactly the corrected writes |
| AssetBuilder.SeedStepAsWritten | sw_infra.py:452-499 | as written, one attribute raises exactly when its name is discovered, its value has no tag and `val` was never set; the fault is `UnboundLocalError` on `val` |
| AssetBuilder.SeedWritesAsWritten | sw_infra.py:452-499 | as written, the only fault the attribute loop raises is `UnboundLocalError` on `val` |
| AssetBuilder.SeedWritesAsWrittenFails | sw_infra.py:452-499 | as written, the attribute loop raises exactly when the first attribute whose name is discovered has no supported type; after a loop that did not raise, `val` is set exactly when some name was discovered |
| AssetBuilder.FirstMatchUntypedSnoc | sw_infra.py:452-499 | one more attribute makes the first matched attribute untyped exactly when the earlier ones already did, or none of them matched and this one matches untyped |
| AssetBuilder.SeedAttributesAsWritten | sw_infra.py:452-499 | the attribute loop as written computes exactly its specification, stopping at the first raise |
| AssetBuilder.StaleValueWritten | sw_infra.py:459-474 | as written, a null attribute after a string attribute is written with the string; the corrected loop skips it |
| AssetBuilder.UntypedFirstAborts | sw_infra.py:459-474 | as written, a null value in the first matched attribute raises `UnboundLocalError`; the corrected loop issues no write |
| AssetBuilder.RecordAndDiscover | sw_infra.py:374-449 | after a successful create, the id is appended to `"assets"`; the entries returned are every described summary of the pages up to the first one without a token; the calls issued are exactly the binding calls for those entries |
| AssetBuilder.CreateAsset | sw_infra.py:358-499 | corrected build: a model missing from the model object aborts with `KeyError` and records nothing; a rejected create skips the asset and records nothing; a created asset is recorded, returned under its name, discovered, bound and seeded with the corrected writes |
| AssetBuilder.CreateAssetAsWritten | sw_infra.py:358-499 | as written: a missing model aborts with `KeyError`; a rejected create raises `UnboundLocalError` on `create_asset_response` at the listing, recording nothing; a created asset is recorded, discovered and bound, and then either raises as the attribute loop as written does, or returns that loop's writes |
| AssetBuilder.AssetFaultSpec | sw_infra.py:358-499 | under both builds a missing model raises `KeyError`. The corrected worker raises nothing else, the listing and describe calls being taken to answer. The worker as written also raises on `create_asset_response` after a rejected create, and on `val` exactly when the first matched attribute is untyped |
| AssetBuilder.ExistingAssetAbortsRun | sw_infra.py:379-395 | an asset whose create is rejected as already existing raises `UnboundLocalError` as written; the corrected worker raises nothing |
| Hierarchy.ChildSlots | sw_infra.py:559-568 | the update's hierarchy list exists exactly when every child model's name resolves, and then has one `{name, childAssetModelId}` per child in order |
| Hierarchy.BuildChildSlots | sw_infra.py:559-568 | the slot-building loop computes exactly that list, or the first `KeyError` |
| Hierarchy.FailureStays | sw_infra.py:560-563 | once a child fails to resolve, the later children cannot change the outcome |
| Hierarchy.FirstSlotIndex | sw_infra.py:597-602 | the position found holds the first described hierarchy of the name; none before it has the name |
| Hierarchy.MapHierarchyIds | sw_infra.py:596-602 | the nested mapping loops update the mapping exactly as specified, child after child |
| Hierarchy.MapChildrenEntries | sw_infra.py:596-602 | with distinct logical ids, each child with a matching described hierarchy maps its logical id to the first match's id; a child without a match adds nothing; every other key keeps its value |
| Hierarchy.UpdateGatesRecording | sw_infra.py:547-605 | a parent fails exactly when its model or a child model is missing; with no child models, or a rejected update, nothing changes; an accepted update records exactly the parent model's id; only a successful describe changes the mapping |
| Hierarchy.ConfigureParent | sw_infra.py:541-605 | one parent of the model pass fails exactly when its specification step does, with the same fault and the parent-model file untouched; otherwise the file gains exactly the parents the step records, and the mapping is the step's |
| Hierarchy.PassStopsAtFault | sw_infra.py:541-607 | once a `KeyError` stops the model pass, the later definitions change nothing |
| Hierarchy.CreateModelHierarchy | sw_infra.py:531-607 | the parent-model file gains exactly the parents the pass records, also those recorded before a fault; the result is the pass's mapping, or its fault |
| Hierarchy.ResolveChildrenSpec | sw_infra.py:650-675 | within one parent, no fault exactly when every child's logical id and asset name resolve, and then one association per child, in order, made of the parent's id, the mapped hierarchy id and the child's id |
| Hierarchy.ResolveAllSpec | sw_infra.py:644-679 | the asset pass faults exactly when some name of some definition fails to resolve; otherwise it records one association per child; every recorded association is made of one definition's resolved ids |
| Hierarchy.ResolvedChildrenAreTriples | sw_infra.py:650-675 | every association resolved for one parent is made of that parent's id and one child's resolved ids |
| Hierarchy.AssociateChildren | sw_infra.py:650-675 | the child loop appends exactly the resolved associations to the association file and reports the first fault |
| Hierarchy.AssociateParent | sw_infra.py:644-679 | a parent asset that is missing raises `KeyError` and records nothing; otherwise the association file gains exactly that parent's resolved associations, and the fault is the children's first |
| Hierarchy.CreateAssetHierarchy | sw_infra.py:636-679 | the association file gains every resolved association, whatever the associate call answered; the result is the empty list the source returns, or the first `KeyError` |
| Hierarchy.ResolveAllStopsAtFault | sw_infra.py:644-657 | once a `KeyError` stops the asset pass, the later definitions change nothing |
| Hierarchy.ChildrenStopAtFault | sw_infra.py:650-657 | once a `KeyError` stops one parent's children, the rest of them change nothing |
| Teardown.DeleteRecorded | sw_infra.py:506-525 | walking a recorded list never hits a missing entry. The file's list loses exactly the entries whose delete succeeded, as a multiset. When the walk reads the file's own list, it is left holding the failed entries, as a multiset, and in order when no entry repeats. Other keys are untouched |
| Teardown.DeleteAssets | sw_infra.py:506-525 | `delete_assets` keeps in `"assets"` exactly the assets whose delete failed, as above |
| Teardown.DeleteAssetModels | sw_infra.py:318-337 | `delete_asset_models` keeps in `"asset_models"` exactly the models whose delete failed, as above |
| Teardown.DeleteModelHierarchy | sw_infra.py:609-630 | the parent-model file keeps exactly the parents whose describe or strip failed, as above |
| Teardown.DeleteAssetHierarchy | sw_infra.py:681-693 | the association file keeps exactly the associations whose disassociate failed, as above |
| Teardown.EmptiedWhenAllSet | sw_infra.py:812-862 | a list holding only the failed entries is empty when every call succeeded |
| Teardown.DeleteHierarchies | sw_infra.py:821-835 | after the first two stages, each hierarchy file keeps exactly its failed entries (exactly in order when none repeats) and is empty when all calls succeeded |
| Teardown.DeleteResources | sw_infra.py:842-860 | the resources file is read once; assets, then models, each keep exactly their failed entries and are emptied when every delete succeeded; no other key changes |
| Teardown.Delete | sw_infra.py:812-862 | the whole teardown leaves each of the four lists holding the entries whose remote call failed, as a multiset, and exactly in order when the list had no repeated entry; every list is empty when every call succeeded; no other key of the resources file changes |
| Provision.Merge | sw_infra.py:749 | every key of the last worker's result is in the merged object, with that worker's value |
| Provision.MergeKeysFromItems | sw_infra.py:749 | every key of the merged object comes from some worker's result |
| Provision.MergeHasEveryKey | sw_infra.py:749 | every key of every worker's result is in the merged object |
| Provision.MergeLastWins | sw_infra.py:749 | a repeated key keeps the value of the last worker result that holds it |
| Provision.FirstFaultSpec | sw_infra.py:742 | a stage fails exactly when some worker raised, and then with the fault of the first worker that did |
| Provision.ModelsStageFault | sw_infra.py:742 | the corrected model stage never fails; as written it fails exactly when some model has transforms and no measurements, with `UnboundLocalError` on `measurement` |
| Provision.CreatedIdsMembers | sw_infra.py:291 | an id is recorded under `"asset_models"` exactly when it was returned for a model whose worker reached its create call |
| Provision.ModelsStageKeys | sw_infra.py:742-749 | a model name is in the model object exactly when some model of that name reached its create call and was created |
| Provision.ModelsStageLastWins | sw_infra.py:742-749 | a model name created more than once maps to the id of the last definition created under it |
| Provision.RunModel | sw_infra.py:148-311 | one model's worker of the given build: its fault and its result are those of the specification, and a created id is appended to `"asset_models"` exactly when the worker reached its create call |
| Provision.CreateAssetModels | sw_infra.py:733-753 | every model definition is tried; the created ids are appended to `"asset_models"` in definition order; the stage fails with the first worker's fault, if any, or yields the merged model object |
| Provision.AssetIdsMembers | sw_infra.py:769 | an id is recorded under `"assets"` exactly when it was returned for an asset whose model resolved |
| Provision.MissingModelSpec | sw_infra.py:365 | with the listing and describe calls taken to answer, the corrected asset stage aborts exactly when some asset names a missing model, and then with the `KeyError` of the first such asset |
| Provision.AsWrittenAssetsFault | sw_infra.py:365-483 | with the listing and describe calls taken to answer, the asset stage as written aborts exactly when some asset names a missing model, has its create rejected, or has an untyped first matched attribute |
| Provision.AssetsStageKeys | sw_infra.py:769-776 | an asset name is in the asset object exactly when some asset of that name had a worker that did not raise and a create that succeeded |
| Provision.RunAsset | sw_infra.py:358-499 | one asset's worker of the given build: its fault and its result are those of the specification; a created id is appended to `"assets"` exactly when the model resolved and the create succeeded, also when the worker then raises |
| Provision.CreateAssets | sw_infra.py:758-779 | every asset is tried; the created ids are appended to `"assets"` in order; the stage fails with the first worker's fault, if any, or yields the merged asset object |
| Provision.CreateResources | sw_infra.py:724-779 | the resources file starts afresh and ends holding the created model ids, and the created asset ids when the model stage did not fail; the result is the model stage's fault, else the asset stage's fault, else both merged objects |
| Provision.CreateHierarchies | sw_infra.py:783-804 | the parent-model file starts afresh and ends holding the parents the model pass recorded; a model-pass fault stops the flow before the asset pass; otherwise the association file gains the resolved associations |
| Provision.Create | sw_infra.py:699-805 | the whole CREATE flow, for either build: the resources file as above; a fault in the model stage (line 742) or the asset stage (line 769) aborts the run with that fault, and the parent-model and association files stay as they were; otherwise the parent-model file is started afresh and the hierarchies are built, and on success the three written objects are the merged models, the merged assets and the hierarchy-id mapping |

## Left out

- Remote service: not modelled as state. Every call's reply is a parameter, so the model does not say what the service does with a request.
- Worker pools (`multiprocessing.Pool`, lines 740 and 767) are modelled as sequential loops in definition order. The model runs every worker and reports the first failing definition's fault, in both builds. `starmap` without a chunk size splits the tasks into chunks of ceil(n / (4 × processes)), and a raise skips the rest of its chunk. So the model's rule that every worker runs matches the source only while each chunk holds one task: at most 32 models (8 processes) and at most 180 assets (45 processes). Beyond that, a definition sharing a chunk with an earlier raising one is never tried in the source. The model also picks the first fault in definition order, while `starmap` re-raises the first failure to arrive, which depends on scheduling. Concurrent workers appending to the same manifest file are not modelled: the read-modify-write helpers could lose an append under interleaving.
- Not modelled: sleeps, prints, timings, the interactive confirmation prompt, the dispatch on `sys.argv`, reading the configuration files, and rewriting the three created-object files (`asset_models.json`, `assets.json`, `hierarchy_id_mapping.json`). The objects between the stages are values. The `{}` that DELETE writes to the created-object files (lines 837-838, 852-853, 861-862) is not modelled.
- Not modelled: reading and writing the manifest files. The store's fields hold their contents, and a helper's read-modify-write is one field update.
- CREATE never starts `asset_hierarchy_mapping.json` afresh. The model keeps whatever the association field held, as the source keeps the file.
- The `entryId` of an attribute write (random characters) and its timestamp (the clock) are not modelled.
- Floating-point values are kept only in their written form. Numeric contents of attribute values are not interpreted.
- Not modelled: the full create response objects that the workers return. The model keeps the runtime id each object is used for. The `if v` filter of the merges keeps every entry, because a create response is never empty.
- `AssetBuilder.ReturnElements`, `AssetBuilder.ListAssetProperties`, `AssetBuilder.AssetFaultSpec`, `Provision.MissingModelSpec` and `Provision.AsWrittenAssetsFault` take every `list_asset_properties` call (lines 392-395, 403-407) and every `describe_asset_property` call (lines 346-349) to answer: a page and a describe reply cannot fail. In the source these calls sit outside any handler, so a ClientError from one (throttling, say) leaves the worker, and `starmap` at line 769 re-raises it in both builds, ending the run. The "raises nothing else" and "exactly when" of those contracts hold only under that assumption.
- Not modelled: the first `describe_asset_model` of each parent (lines 550-556), which is outside any handler, and the properties it copies into the update. A failure of that call would abort the run.
- `ModelBuilder.MeasurementUnit`: the `"None"` rewrite of line 174 is modelled on the loop variable `measurement`, which the transform loop reads again. The model does not write it back into the configuration object, which nothing modelled reads again.
- The fixed tag map (line 21) sent with every `create_asset_model` and `create_asset` call is not modelled, and neither is the constant asset description of line 371. These are constants, not derived from the definitions.
- `Provision.RunAsset`: when an asset's worker raises after its create call, the writes it issued before the raise are not part of the outcome. Only its fault and its recorded id are stated.
- `AssetBuilder.ListAssetProperties` demands that the scripted pages end with one without a continuation token. The source loops for as long as the service keeps returning a token.
- `AssetBuilder.BindMeasurements` keys each binding's replies on the binding itself, so two identical bindings meet the same replies.
- `Teardown.DeleteRecorded`, `Teardown.DeleteModelHierarchy`, `Teardown.DeleteAssetHierarchy` and `Teardown.Delete` state the surviving list exactly, in order, only when the recorded list has no repeated entry. With repeats, `list.remove` takes the first occurrence, and only the multiset is stated.
- A walker that removes nothing on ClientError also keeps an entry whose remote resource is already gone.
- `Hierarchy.CreateAssetHierarchy` records an association in the manifest even when the associate call fails (lines 666-675). The model follows the code.
- `create_asset_hierarchy` returns an empty list that it never fills (lines 642, 679). The model returns that empty list.
- Not modelled: a KeyError from a manifest helper on a key the resources file lacks. Every call uses one of the two keys the file is created with, so the helpers demand the key.

## Findings

| source | as written | input that shows it | evidently intended | confidence | as-written member | corrected member |
|---|---|---|---|---|---|---|
| sw_infra.py:203-204 | inside the transform loop the code tests `measurement["unit"]`, the loop variable of the earlier measurement loop | a model with a transform and no measurement: `measurement` was never bound, so `UnboundLocalError` aborts the model's worker | the transform is built with its own unit, as line 208 sends it; the test belongs to no transform | high, not executed | `ModelBuilder.BuildPropertyValuesAsWritten`, specified by `ModelBuilder.PropertyValuesAsWrittenSpec` (exhibit `ModelBuilder.TransformWithoutMeasurementFails`) | `ModelBuilder.BuildPropertyValues` |
| sw_infra.py:379-395 | a ClientError from `create_asset` is caught and execution continues to the property listing, which reads `create_asset_response["assetId"]` | an asset whose create call is rejected with `ResourceAlreadyExistsException`: `create_asset_response` is unbound, the worker raises `UnboundLocalError`, and `starmap` aborts the run | a rejected asset is skipped: nothing recorded, `{}` returned, the listing not attempted | high, not executed | `AssetBuilder.CreateAssetAsWritten` (exhibit `AssetBuilder.ExistingAssetAbortsRun`) | `AssetBuilder.CreateAsset` |
| sw_infra.py:459-474 | `val` is assigned only in the four typed branches and then written whatever the branch | attributes `Vendor = "Acme"` then `Serial = null`, both discovered: `Serial` is written with `"Acme"`; a null first attribute raises `UnboundLocalError` instead | an attribute whose value has no supported type issues no write | medium, not executed | `AssetBuilder.SeedAttributesAsWritten`, specified by `AssetBuilder.SeedWritesAsWrittenFails` (exhibits `AssetBuilder.StaleValueWritten`, `AssetBuilder.UntypedFirstAborts`) | `AssetBuilder.SeedAttributes` |
