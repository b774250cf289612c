/** The teardown: DELETE walks each recorded list and removes an entry from
    the manifest only when the remote delete (or disassociate, or hierarchy
    strip) for it succeeds. Each walker iterates over the list as it was read
    at the start of its stage while the removal helpers rewrite the file. */
module Teardown {
  import opened Common
  import opened Seqs
  import opened Manifest

  /** The entries a walker has still to visit are all in the file's list. */
  ghost predicate Present<T>(recorded: seq<T>, i: nat, current: seq<T>)
    requires i <= |recorded|
  {
    multiset(recorded[i..]) <= multiset(current)
  }

  /** The list lost exactly the visited entries whose remote call succeeded. */
  ghost predicate Balanced<T>(recorded: seq<T>, deleted: seq<bool>, i: nat,
                              current: seq<T>, original: seq<T>)
    requires |deleted| == |recorded| && i <= |recorded|
  {
    multiset(current) + multiset(Removed(recorded[..i], deleted[..i])) == multiset(original)
  }

  /** Walking a list read from the file itself, with no repeated entry: the
      visited part is filtered in place and the rest is untouched. */
  ghost predicate InPlace<T>(recorded: seq<T>, deleted: seq<bool>, i: nat,
                             current: seq<T>, original: seq<T>)
    requires |deleted| == |recorded| && i <= |recorded|
  {
    original == recorded && NoDuplicates(recorded) ==>
      current == Kept(recorded[..i], deleted[..i]) + recorded[i..]
  }

  /** What holds after a walker has visited `recorded[..i]`, with `current`
      the file's list and `original` the list before the walk. */
  ghost predicate Walked<T>(recorded: seq<T>, deleted: seq<bool>, i: nat,
                            current: seq<T>, original: seq<T>)
    requires |deleted| == |recorded| && i <= |recorded|
  {
    && Present(recorded, i, current)
    && Balanced(recorded, deleted, i, current, original)
    && InPlace(recorded, deleted, i, current, original)
  }

  /** The next entry to visit is present, and removing it (or not) keeps
      the rest present; so `list.remove` never raises during a walk. */
  lemma PresentStep<T>(recorded: seq<T>, i: nat, current: seq<T>, remove: bool)
    requires i < |recorded| && Present(recorded, i, current)
    ensures recorded[i] in current
    ensures Present(recorded, i + 1, if remove then RemoveFirst(current, recorded[i]) else current)
  {
    var x := recorded[i];
    assert recorded[i..] == [x] + recorded[i + 1..];
    assert multiset(recorded[i..]) == multiset{x} + multiset(recorded[i + 1..]);
    assert x in multiset(current);
  }

  /** Moving one occurrence from one multiset to another keeps their sum. */
  lemma MoveOne<T>(c: multiset<T>, r: multiset<T>, x: T)
    requires x in c
    ensures (c - multiset{x}) + (r + multiset{x}) == c + r
  {
  }

  lemma BalancedStep<T>(recorded: seq<T>, deleted: seq<bool>, i: nat,
                        current: seq<T>, original: seq<T>)
    requires |deleted| == |recorded| && i < |recorded|
    requires recorded[i] in current && Balanced(recorded, deleted, i, current, original)
    ensures Balanced(recorded, deleted, i + 1,
                     if deleted[i] then RemoveFirst(current, recorded[i]) else current, original)
  {
    SelectStep(recorded, deleted, i);
    if deleted[i] {
      MoveOne(multiset(current), multiset(Removed(recorded[..i], deleted[..i])), recorded[i]);
    }
  }

  lemma InPlaceStep<T>(recorded: seq<T>, deleted: seq<bool>, i: nat,
                       current: seq<T>, original: seq<T>)
    requires |deleted| == |recorded| && i < |recorded|
    requires recorded[i] in current && InPlace(recorded, deleted, i, current, original)
    ensures InPlace(recorded, deleted, i + 1,
                    if deleted[i] then RemoveFirst(current, recorded[i]) else current, original)
  {
    if original == recorded && NoDuplicates(recorded) {
      var x := recorded[i];
      var kept := Kept(recorded[..i], deleted[..i]);
      var rest := recorded[i + 1..];
      SelectStep(recorded, deleted, i);
      assert current == kept + [x] + rest by {
        assert recorded[i..] == [x] + rest;
      }
      if deleted[i] {
        NotYetKept(recorded, deleted, i);
        RemoveFirstAfterPrefix(kept, x, rest);
        assert Kept(recorded[..i + 1], deleted[..i + 1]) == kept + [] == kept;
      } else {
        assert Kept(recorded[..i + 1], deleted[..i + 1]) == kept + [x];
      }
    }
  }

  /** Without repeated entries, the entry about to be visited is not among
      those kept so far. */
  lemma NotYetKept<T>(recorded: seq<T>, deleted: seq<bool>, i: nat)
    requires |deleted| == |recorded| && i < |recorded| && NoDuplicates(recorded)
    ensures recorded[i] !in Kept(recorded[..i], deleted[..i])
  {
    forall y | y in Kept(recorded[..i], deleted[..i]) ensures y != recorded[i] {
      assert y in recorded[..i];
    }
  }

  /** One visit keeps `Walked`, and the visited entry is present. */
  lemma WalkStep<T>(recorded: seq<T>, deleted: seq<bool>, i: nat, current: seq<T>, original: seq<T>)
    requires |deleted| == |recorded| && i < |recorded|
    requires Walked(recorded, deleted, i, current, original)
    ensures recorded[i] in current
    ensures Walked(recorded, deleted, i + 1,
                   if deleted[i] then RemoveFirst(current, recorded[i]) else current, original)
  {
    PresentStep(recorded, i, current, deleted[i]);
    BalancedStep(recorded, deleted, i, current, original);
    InPlaceStep(recorded, deleted, i, current, original);
  }

  /** Before a walk nothing has been visited. */
  lemma WalkStart<T>(recorded: seq<T>, deleted: seq<bool>, original: seq<T>)
    requires |deleted| == |recorded| && multiset(recorded) <= multiset(original)
    ensures Walked(recorded, deleted, 0, original, original)
  {
    assert recorded[0..] == recorded;
    assert Removed(recorded[..0], deleted[..0]) == [];
    assert Kept(recorded[..0], deleted[..0]) == [];
  }

  /** After a walk the list holds what it held minus the successfully
      deleted entries; when it was read from this very list, it holds the
      unsuccessful ones. */
  lemma WalkEnd<T>(recorded: seq<T>, deleted: seq<bool>, current: seq<T>, original: seq<T>)
    requires |deleted| == |recorded| && Walked(recorded, deleted, |recorded|, current, original)
    ensures multiset(current) + multiset(Removed(recorded, deleted)) == multiset(original)
    ensures original == recorded ==> multiset(current) == multiset(Kept(recorded, deleted))
    ensures original == recorded && NoDuplicates(recorded) ==> current == Kept(recorded, deleted)
  {
    assert recorded[..|recorded|] == recorded;
    assert deleted[..|deleted|] == deleted;
    assert Balanced(recorded, deleted, |recorded|, current, original);
    if original == recorded {
      KeptAndRemoved(recorded, deleted);
      Cancel(multiset(current), multiset(Kept(recorded, deleted)),
             multiset(Removed(recorded, deleted)));
    }
    if original == recorded && NoDuplicates(recorded) {
      assert InPlace(recorded, deleted, |recorded|, current, original);
      assert recorded[|recorded|..] == [];
    }
  }

  /** Multiset addition cancels. */
  lemma Cancel<T>(a: multiset<T>, b: multiset<T>, r: multiset<T>)
    requires a + r == b + r
    ensures a == b
  {
    forall x ensures a[x] == b[x] {
      assert (a + r)[x] == (b + r)[x];
    }
  }

  /** One step of the walker over a resources list: `list` is the list
      under `key` and the entry `recorded[i]` is deleted when its flag is
      set. */
  method VisitResource(store: Store, key: string, recorded: seq<Id>, deleted: seq<bool>, i: nat,
                       ghost list: seq<Id>, ghost original: seq<Id>)
    returns (ghost next: seq<Id>)
    requires |deleted| == |recorded| && i < |recorded|
    requires key in store.resources && store.resources[key] == list
    requires Walked(recorded, deleted, i, list, original)
    modifies store`resources
    ensures store.resources == old(store.resources)[key := next]
    ensures Walked(recorded, deleted, i + 1, next, original)
  {
    WalkStep(recorded, deleted, i, list, original);
    next := list;
    if deleted[i] {
      store.DeleteResourcesElement(key, recorded[i]);
      next := RemoveFirst(list, recorded[i]);
    }
  }

  /** The walker shared by `delete_assets` and `delete_asset_models`:
      `deleted[i]` says whether the remote delete of `recorded[i]`
      succeeded. */
  method DeleteRecorded(store: Store, key: string, recorded: seq<Id>, deleted: seq<bool>)
    requires key in store.resources && |deleted| == |recorded|
    requires multiset(recorded) <= multiset(store.resources[key])
    modifies store`resources
    ensures key in store.resources
    ensures store.resources == old(store.resources)[key := store.resources[key]]
    ensures multiset(store.resources[key]) + multiset(Removed(recorded, deleted))
         == multiset(old(store.resources)[key])
    ensures old(store.resources)[key] == recorded ==>
              multiset(store.resources[key]) == multiset(Kept(recorded, deleted))
    ensures old(store.resources)[key] == recorded && NoDuplicates(recorded) ==>
              store.resources[key] == Kept(recorded, deleted)
  {
    ghost var original := store.resources[key];
    ghost var list := original;
    WalkStart(recorded, deleted, original);
    for i := 0 to |recorded|
      invariant store.resources == old(store.resources)[key := list]
      invariant Walked(recorded, deleted, i, list, original)
    {
      list := VisitResource(store, key, recorded, deleted, i, list, original);
    }
    WalkEnd(recorded, deleted, list, original);
  }

  /** `delete_assets` */
  method DeleteAssets(store: Store, recorded: seq<Id>, deleted: seq<bool>)
    requires AssetsKey in store.resources && |deleted| == |recorded|
    requires multiset(recorded) <= multiset(store.resources[AssetsKey])
    modifies store`resources
    ensures AssetsKey in store.resources
    ensures store.resources == old(store.resources)[AssetsKey := store.resources[AssetsKey]]
    ensures multiset(store.resources[AssetsKey]) + multiset(Removed(recorded, deleted))
         == multiset(old(store.resources)[AssetsKey])
    ensures old(store.resources)[AssetsKey] == recorded ==>
              multiset(store.resources[AssetsKey]) == multiset(Kept(recorded, deleted))
    ensures old(store.resources)[AssetsKey] == recorded && NoDuplicates(recorded) ==>
              store.resources[AssetsKey] == Kept(recorded, deleted)
  {
    DeleteRecorded(store, AssetsKey, recorded, deleted);
  }

  /** `delete_asset_models` */
  method DeleteAssetModels(store: Store, recorded: seq<Id>, deleted: seq<bool>)
    requires AssetModelsKey in store.resources && |deleted| == |recorded|
    requires multiset(recorded) <= multiset(store.resources[AssetModelsKey])
    modifies store`resources
    ensures AssetModelsKey in store.resources
    ensures store.resources == old(store.resources)[AssetModelsKey := store.resources[AssetModelsKey]]
    ensures multiset(store.resources[AssetModelsKey]) + multiset(Removed(recorded, deleted))
         == multiset(old(store.resources)[AssetModelsKey])
    ensures old(store.resources)[AssetModelsKey] == recorded ==>
              multiset(store.resources[AssetModelsKey]) == multiset(Kept(recorded, deleted))
    ensures old(store.resources)[AssetModelsKey] == recorded && NoDuplicates(recorded) ==>
              store.resources[AssetModelsKey] == Kept(recorded, deleted)
  {
    DeleteRecorded(store, AssetModelsKey, recorded, deleted);
  }

  /** `delete_model_hierarchy`: `stripped[i]` says whether both the describe
      call and the update that empties the hierarchies of `recorded[i]`
      succeeded. */
  method DeleteModelHierarchy(store: Store, recorded: seq<Id>, stripped: seq<bool>)
    requires |stripped| == |recorded| && multiset(recorded) <= multiset(store.parentModels)
    modifies store`parentModels
    ensures multiset(store.parentModels) + multiset(Removed(recorded, stripped))
         == multiset(old(store.parentModels))
    ensures old(store.parentModels) == recorded ==>
              multiset(store.parentModels) == multiset(Kept(recorded, stripped))
    ensures old(store.parentModels) == recorded && NoDuplicates(recorded) ==>
              store.parentModels == Kept(recorded, stripped)
  {
    WalkStart(recorded, stripped, store.parentModels);
    for i := 0 to |recorded|
      invariant Walked(recorded, stripped, i, store.parentModels, old(store.parentModels))
    {
      WalkStep(recorded, stripped, i, store.parentModels, old(store.parentModels));
      if stripped[i] {
        store.DeleteParentModelElement(recorded[i]);
      }
    }
    WalkEnd(recorded, stripped, store.parentModels, old(store.parentModels));
  }

  /** `delete_asset_hierarchy`: `disassociated[i]` says whether the
      disassociate call for `recorded[i]` succeeded. */
  method DeleteAssetHierarchy(store: Store, recorded: seq<Association>, disassociated: seq<bool>)
    requires |disassociated| == |recorded|
    requires multiset(recorded) <= multiset(store.assetHierarchyMapping)
    modifies store`assetHierarchyMapping
    ensures multiset(store.assetHierarchyMapping) + multiset(Removed(recorded, disassociated))
         == multiset(old(store.assetHierarchyMapping))
    ensures old(store.assetHierarchyMapping) == recorded ==>
              multiset(store.assetHierarchyMapping) == multiset(Kept(recorded, disassociated))
    ensures old(store.assetHierarchyMapping) == recorded && NoDuplicates(recorded) ==>
              store.assetHierarchyMapping == Kept(recorded, disassociated)
  {
    WalkStart(recorded, disassociated, store.assetHierarchyMapping);
    for i := 0 to |recorded|
      invariant Walked(recorded, disassociated, i, store.assetHierarchyMapping,
                       old(store.assetHierarchyMapping))
    {
      WalkStep(recorded, disassociated, i, store.assetHierarchyMapping, old(store.assetHierarchyMapping));
      if disassociated[i] {
        store.DeleteAssetHierarchyMappingElement(recorded[i]);
      }
    }
    WalkEnd(recorded, disassociated, store.assetHierarchyMapping, old(store.assetHierarchyMapping));
  }

  /** A list left holding, as a multiset, only the entries whose remote
      call failed is empty when every call succeeded. */
  lemma EmptiedWhenAllSet<T>(current: seq<T>, recorded: seq<T>, flags: seq<bool>)
    requires |flags| == |recorded| && AllSet(flags)
    requires multiset(current) == multiset(Kept(recorded, flags))
    ensures current == []
  {
    AllRemoved(recorded, flags);
    assert |current| == |multiset(current)|;
  }

  /** The remote outcome of every call DELETE makes, one flag per recorded
      entry of each stage. */
  datatype DeleteReplies = DeleteReplies(disassociated: seq<bool>, stripped: seq<bool>,
                                         assetsDeleted: seq<bool>, modelsDeleted: seq<bool>)

  /** The first two DELETE stages: every association, then every parent
      model's hierarchies, each walked as read from its file. */
  method DeleteHierarchies(store: Store, replies: DeleteReplies)
    requires |replies.disassociated| == |store.assetHierarchyMapping|
    requires |replies.stripped| == |store.parentModels|
    modifies store`parentModels, store`assetHierarchyMapping
    ensures multiset(store.assetHierarchyMapping)
         == multiset(Kept(old(store.assetHierarchyMapping), replies.disassociated))
    ensures multiset(store.parentModels) == multiset(Kept(old(store.parentModels), replies.stripped))
    ensures NoDuplicates(old(store.assetHierarchyMapping)) ==>
              store.assetHierarchyMapping
              == Kept(old(store.assetHierarchyMapping), replies.disassociated)
    ensures NoDuplicates(old(store.parentModels)) ==>
              store.parentModels == Kept(old(store.parentModels), replies.stripped)
    ensures AllSet(replies.disassociated) ==> store.assetHierarchyMapping == []
    ensures AllSet(replies.stripped) ==> store.parentModels == []
  {
    var associations := store.assetHierarchyMapping;
    DeleteAssetHierarchy(store, associations, replies.disassociated);
    var parents := store.parentModels;
    DeleteModelHierarchy(store, parents, replies.stripped);
    if AllSet(replies.disassociated) {
      EmptiedWhenAllSet(store.assetHierarchyMapping, associations, replies.disassociated);
    }
    if AllSet(replies.stripped) {
      EmptiedWhenAllSet(store.parentModels, parents, replies.stripped);
    }
  }

  /** The last two DELETE stages: the resources file is read once, then its
      assets and its asset models are walked. */
  method DeleteResources(store: Store, replies: DeleteReplies)
    requires store.HasKeys()
    requires |replies.assetsDeleted| == |store.resources[AssetsKey]|
    requires |replies.modelsDeleted| == |store.resources[AssetModelsKey]|
    modifies store`resources
    ensures store.HasKeys()
    ensures store.resources == old(store.resources)[AssetsKey := store.resources[AssetsKey]]
                                                   [AssetModelsKey := store.resources[AssetModelsKey]]
    ensures multiset(store.resources[AssetsKey])
         == multiset(Kept(old(store.resources)[AssetsKey], replies.assetsDeleted))
    ensures multiset(store.resources[AssetModelsKey])
         == multiset(Kept(old(store.resources)[AssetModelsKey], replies.modelsDeleted))
    ensures NoDuplicates(old(store.resources)[AssetsKey]) ==>
              store.resources[AssetsKey] == Kept(old(store.resources)[AssetsKey], replies.assetsDeleted)
    ensures NoDuplicates(old(store.resources)[AssetModelsKey]) ==>
              store.resources[AssetModelsKey]
              == Kept(old(store.resources)[AssetModelsKey], replies.modelsDeleted)
    ensures AllSet(replies.assetsDeleted) ==> store.resources[AssetsKey] == []
    ensures AllSet(replies.modelsDeleted) ==> store.resources[AssetModelsKey] == []
  {
    var resources := store.resources;
    DeleteAssets(store, resources[AssetsKey], replies.assetsDeleted);
    ghost var assets := store.resources[AssetsKey];
    assert store.resources[AssetModelsKey] == resources[AssetModelsKey];
    DeleteAssetModels(store, resources[AssetModelsKey], replies.modelsDeleted);
    assert store.resources[AssetsKey] == assets;
    if AllSet(replies.assetsDeleted) {
      EmptiedWhenAllSet(store.resources[AssetsKey], resources[AssetsKey], replies.assetsDeleted);
    }
    if AllSet(replies.modelsDeleted) {
      EmptiedWhenAllSet(store.resources[AssetModelsKey], resources[AssetModelsKey],
                        replies.modelsDeleted);
    }
  }

  /** The DELETE flow: associations, then parent-model hierarchies, then
      assets, then asset models. Every list ends up holding (as a multiset,
      and as a sequence when it had no repeated entry) the entries whose
      remote call failed; when every call succeeds, every list is empty. No
      other key of the resources file changes. */
  method Delete(store: Store, replies: DeleteReplies)
    requires store.HasKeys()
    requires |replies.disassociated| == |store.assetHierarchyMapping|
    requires |replies.stripped| == |store.parentModels|
    requires |replies.assetsDeleted| == |store.resources[AssetsKey]|
    requires |replies.modelsDeleted| == |store.resources[AssetModelsKey]|
    modifies store`resources, store`parentModels, store`assetHierarchyMapping
    ensures store.HasKeys()
    ensures multiset(store.assetHierarchyMapping)
         == multiset(Kept(old(store.assetHierarchyMapping), replies.disassociated))
    ensures multiset(store.parentModels) == multiset(Kept(old(store.parentModels), replies.stripped))
    ensures multiset(store.resources[AssetsKey])
         == multiset(Kept(old(store.resources)[AssetsKey], replies.assetsDeleted))
    ensures multiset(store.resources[AssetModelsKey])
         == multiset(Kept(old(store.resources)[AssetModelsKey], replies.modelsDeleted))
    ensures NoDuplicates(old(store.assetHierarchyMapping)) ==>
              store.assetHierarchyMapping
              == Kept(old(store.assetHierarchyMapping), replies.disassociated)
    ensures NoDuplicates(old(store.parentModels)) ==>
              store.parentModels == Kept(old(store.parentModels), replies.stripped)
    ensures NoDuplicates(old(store.resources)[AssetsKey]) ==>
              store.resources[AssetsKey] == Kept(old(store.resources)[AssetsKey], replies.assetsDeleted)
    ensures NoDuplicates(old(store.resources)[AssetModelsKey]) ==>
              store.resources[AssetModelsKey]
              == Kept(old(store.resources)[AssetModelsKey], replies.modelsDeleted)
    ensures store.resources == old(store.resources)[AssetsKey := store.resources[AssetsKey]]
                                                   [AssetModelsKey := store.resources[AssetModelsKey]]
    ensures AllSet(replies.disassociated) && AllSet(replies.stripped) &&
            AllSet(replies.assetsDeleted) && AllSet(replies.modelsDeleted) ==>
              store.assetHierarchyMapping == [] && store.parentModels == [] &&
              store.resources[AssetsKey] == [] && store.resources[AssetModelsKey] == []
  {
    DeleteHierarchies(store, replies);
    DeleteResources(store, replies);
  }
}
