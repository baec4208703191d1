/**
  The event filter of the controller: an update event of a Kustomization
  triggers a reconcile only when its generation changed or when the sync-at
  annotation appeared or changed value. The annotation key is defined
  outside this model, so it is a parameter `syncAt`, and every property
  below holds whatever key is used.
 */
module KustomizationPredicate {
  import opened KustomizeApi

  /**
    KustomizationSyncAtPredicate.Update over the old and new metadata of an
    update event (None for a nil side). The contract is the closed form of
    the early returns.
   */
  function Update(syncAt: string, metaOld: Option<ObjectMeta>, metaNew: Option<ObjectMeta>): (r: bool)
    ensures r <==>
      metaOld.Some? && metaNew.Some? &&
      (metaNew.value.generation != metaOld.value.generation ||
       (syncAt in metaNew.value.annotations &&
        (syncAt !in metaOld.value.annotations ||
         metaNew.value.annotations[syncAt] != metaOld.value.annotations[syncAt])))
  {
    if metaOld.None? || metaNew.None? then
      false
    else if metaNew.value.generation != metaOld.value.generation then
      true
    else if syncAt in metaNew.value.annotations then
      var val := metaNew.value.annotations[syncAt];
      if syncAt in metaOld.value.annotations then
        var valOld := metaOld.value.annotations[syncAt];
        val != valOld
      else
        true
    else
      false
  }

  /** Events that lack metadata on either side are suppressed. */
  lemma MissingMetadataIgnored(syncAt: string, metaOld: Option<ObjectMeta>, metaNew: Option<ObjectMeta>)
    requires metaOld.None? || metaNew.None?
    ensures !Update(syncAt, metaOld, metaNew)
  {
  }

  /** A generation change triggers a reconcile whatever the annotations hold. */
  lemma GenerationChangeTriggers(syncAt: string, metaOld: ObjectMeta, metaNew: ObjectMeta)
    requires metaNew.generation != metaOld.generation
    ensures Update(syncAt, Some(metaOld), Some(metaNew))
  {
  }

  /**
    With an unchanged generation, the sync-at annotation triggers a reconcile
    exactly when it is present on the new object and was absent or different
    on the old one.
   */
  lemma SyncAtTriggersIff(syncAt: string, metaOld: ObjectMeta, metaNew: ObjectMeta)
    requires metaNew.generation == metaOld.generation
    ensures syncAt in metaNew.annotations && syncAt !in metaOld.annotations
      ==> Update(syncAt, Some(metaOld), Some(metaNew))
    ensures syncAt in metaNew.annotations && syncAt in metaOld.annotations
      ==> (Update(syncAt, Some(metaOld), Some(metaNew)) <==>
           metaNew.annotations[syncAt] != metaOld.annotations[syncAt])
    ensures syncAt !in metaNew.annotations ==> !Update(syncAt, Some(metaOld), Some(metaNew))
  {
  }

  /**
    The controller's own status writes keep the generation and the
    annotations, so the update events they cause never trigger a reconcile.
   */
  lemma StatusOnlyWritesIgnored(syncAt: string, metaOld: ObjectMeta, metaNew: ObjectMeta)
    requires metaNew.generation == metaOld.generation
    requires metaNew.annotations == metaOld.annotations
    ensures !Update(syncAt, Some(metaOld), Some(metaNew))
  {
  }
}
