/** The local manifest: the records of every remote resource a run created,
    kept so that a failed or partial run can be unwound. Each of the three
    files under `created/` that the helpers rewrite is a field here:
    `resources.json` (a keyed collection of id lists), `parent_models.json`
    and `asset_hierarchy_mapping.json`. Every helper reads the whole file,
    adds or removes one element and writes the whole file back; in this
    sequential model that is one assignment to the field. */
module Manifest {
  import opened Common
  import opened Seqs

  /** The resources key under which created asset-model ids are recorded. */
  const AssetModelsKey: string := "asset_models"
  /** The resources key under which created asset ids are recorded. */
  const AssetsKey: string := "assets"

  /** One parent/child association made in the asset-hierarchy pass. */
  datatype Association = Association(assetId: Id, hierarchyId: Id, childAssetId: Id)

  class Store {
    /** `created/resources.json` */
    var resources: map<string, seq<Id>>
    /** `created/parent_models.json` */
    var parentModels: seq<Id>
    /** `created/asset_hierarchy_mapping.json` */
    var assetHierarchyMapping: seq<Association>

    /** The two keys every CREATE run starts the resources file with. */
    ghost predicate HasKeys()
      reads this
    {
      AssetModelsKey in resources && AssetsKey in resources
    }

    /** A store over the given file contents. */
    constructor (resources: map<string, seq<Id>>, parentModels: seq<Id>,
                 assetHierarchyMapping: seq<Association>)
      ensures this.resources == resources
      ensures this.parentModels == parentModels
      ensures this.assetHierarchyMapping == assetHierarchyMapping
    {
      this.resources := resources;
      this.parentModels := parentModels;
      this.assetHierarchyMapping := assetHierarchyMapping;
    }

    /** CREATE starts `resources.json` afresh with two empty lists. */
    method InitiateResources()
      modifies this`resources
      ensures resources == map[AssetModelsKey := [], AssetsKey := []]
      ensures HasKeys()
    {
      resources := map[AssetModelsKey := [], AssetsKey := []];
    }

    /** Before the model-hierarchy pass CREATE empties `parent_models.json`. */
    method InitiateParentModels()
      modifies this`parentModels
      ensures parentModels == []
    {
      parentModels := [];
    }

    /** `add_resources_element`: the list under `key` gets `element` at its
        end; every other key keeps its list. A missing key raises `KeyError`. */
    method AddResourcesElement(key: string, element: Id)
      requires key in resources
      modifies this`resources
      ensures resources == old(resources)[key := old(resources)[key] + [element]]
      ensures resources.Keys == old(resources).Keys
    {
      resources := resources[key := resources[key] + [element]];
    }

    /** `delete_resources_element`: the first occurrence of `element` leaves
        the list under `key`; every other key keeps its list. `list.remove`
        raises when the element is absent. */
    method DeleteResourcesElement(key: string, element: Id)
      requires key in resources && element in resources[key]
      modifies this`resources
      ensures resources == old(resources)[key := RemoveFirst(old(resources)[key], element)]
      ensures resources.Keys == old(resources).Keys
      ensures multiset(resources[key]) == multiset(old(resources)[key]) - multiset{element}
    {
      resources := resources[key := RemoveFirst(resources[key], element)];
    }

    /** `add_parent_model_element` */
    method AddParentModelElement(element: Id)
      modifies this`parentModels
      ensures parentModels == old(parentModels) + [element]
    {
      parentModels := parentModels + [element];
    }

    /** `delete_parent_model_element` */
    method DeleteParentModelElement(element: Id)
      requires element in parentModels
      modifies this`parentModels
      ensures parentModels == RemoveFirst(old(parentModels), element)
      ensures multiset(parentModels) == multiset(old(parentModels)) - multiset{element}
    {
      parentModels := RemoveFirst(parentModels, element);
    }

    /** `add_asset_hierarchy_mapping_element` */
    method AddAssetHierarchyMappingElement(element: Association)
      modifies this`assetHierarchyMapping
      ensures assetHierarchyMapping == old(assetHierarchyMapping) + [element]
    {
      assetHierarchyMapping := assetHierarchyMapping + [element];
    }

    /** `delete_asset_hierarchy_mapping_element` */
    method DeleteAssetHierarchyMappingElement(element: Association)
      requires element in assetHierarchyMapping
      modifies this`assetHierarchyMapping
      ensures assetHierarchyMapping == RemoveFirst(old(assetHierarchyMapping), element)
      ensures multiset(assetHierarchyMapping)
           == multiset(old(assetHierarchyMapping)) - multiset{element}
    {
      assetHierarchyMapping := RemoveFirst(assetHierarchyMapping, element);
    }
  }

  /** Recording a freshly created id under a key and then deleting it gives
      back the resources file as it was. */
  lemma AddThenDeleteRestores(resources: map<string, seq<Id>>, key: string, element: Id)
    requires key in resources && element !in resources[key]
    ensures var added := resources[key := resources[key] + [element]];
            element in added[key] &&
            added[key := RemoveFirst(added[key], element)] == resources
  {
    AppendThenRemove(resources[key], element);
  }

  /** A client of the store: adding a fresh asset id and deleting it leaves
      the store as it was. */
  method RoundTrip(store: Store, element: Id)
    requires AssetsKey in store.resources && element !in store.resources[AssetsKey]
    modifies store`resources
    ensures store.resources == old(store.resources)
  {
    store.AddResourcesElement(AssetsKey, element);
    AddThenDeleteRestores(old(store.resources), AssetsKey, element);
    store.DeleteResourcesElement(AssetsKey, element);
  }
}
