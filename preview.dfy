/** The pager screen of fragments/PreviewMediaFragment.kt: a page cursor, the
    action-group visibility toggled by image clicks, video playback requests, and the
    delete flow that removes the current page from the adapter and then from the store.
    The content store is the set of uris it holds; navigation and launched activities
    are recorded, not performed. */
module Preview {
  import opened Wrappers
  import opened Records
  import opened Permissions
  import opened Adapter
  import opened StoreCatalog

  /** View.VISIBLE and View.GONE. */
  datatype Visibility = Visible | Gone

  /** The visibility an image click switches to. */
  function Toggle(v: Visibility): (w: Visibility)
    ensures w != v
  {
    if v == Visible then Gone else Visible
  }

  /** Two image clicks restore the visibility. */
  lemma ToggleTwice(v: Visibility)
    ensures Toggle(Toggle(v)) == v
  {
  }

  /** An ACTION_VIEW intent with its data uri and MIME type. */
  datatype ViewRequest = ViewRequest(uri: Uri, mimeType: string)

  /** The MIME type every playback request carries. */
  const PlaybackMimeType: string := "video/mp4"

  class PreviewMediaFragment {
    const mediaAdapter: MediaAdapter
    var currentPage: int
    var actionsVisibility: Visibility
    /** The uris the content store still holds. */
    var store: set<Uri>
    /** How many times `onBackPressed` navigated back. */
    var backPresses: nat
    /** The playback activities started, in order. */
    var launched: seq<ViewRequest>

    /** Every listed record is still in the store. */
    ghost predicate InStore()
      reads this, mediaAdapter
    {
      UrisOf(mediaAdapter.mediaList) <= store
    }

    /** A fresh fragment: an empty adapter and `currentPage` 0. */
    constructor (store: set<Uri>, actionsVisibility: Visibility)
      ensures fresh(mediaAdapter) && mediaAdapter.mediaList == []
      ensures currentPage == 0 && this.actionsVisibility == actionsVisibility
      ensures this.store == store && backPresses == 0 && launched == []
      ensures InStore() && UniqueUris(mediaAdapter.mediaList)
    {
      mediaAdapter := new MediaAdapter();
      currentPage := 0;
      this.actionsVisibility := actionsVisibility;
      this.store := store;
      backPresses := 0;
      launched := [];
    }

    /** `onViewCreated`: the inherited gate runs (its grant callback is the default
        no-op); the adapter is loaded with `getMedia()` only when CAMERA and RECORD_AUDIO
        are granted, and otherwise keeps its list. When the store holds every loaded uri
        and the cursor's ids are distinct, the listing invariant that `DeleteImage`
        preserves is established. */
    method OnViewCreated(granted: set<Permission>, contextAvailable: bool, cursor: Option<seq<StoreRow>>)
      returns (gate: GateAction)
      modifies mediaAdapter
      ensures gate == LifecycleGate(granted)
      ensures mediaAdapter.mediaList
              == if AllGranted(StorePermissions, granted) then StoreQuery(contextAvailable, cursor)
                 else old(mediaAdapter.mediaList)
      ensures AllGranted(StorePermissions, granted)
              && UrisOf(StoreQuery(contextAvailable, cursor)) <= store
              && (cursor.Some? ==> DistinctIds(cursor.value))
              ==> InStore() && UniqueUris(mediaAdapter.mediaList)
      ensures !AllGranted(StorePermissions, granted) && old(InStore()) && old(UniqueUris(mediaAdapter.mediaList))
              ==> InStore() && UniqueUris(mediaAdapter.mediaList)
    {
      gate := LifecycleGate(granted);
      if AllGranted(StorePermissions, granted) {
        var media := GetMediaStore(contextAvailable, cursor);
        mediaAdapter.SubmitList(media);
        if contextAvailable && cursor.Some? && DistinctIds(cursor.value) {
          DistinctIdsUniqueUris(cursor.value);
        }
      }
    }

    /** The page-change listener: `currentPage` becomes the selected page. */
    method OnPageSelected(page: int)
      modifies this
      ensures currentPage == page
      ensures actionsVisibility == old(actionsVisibility) && store == old(store)
      ensures backPresses == old(backPresses) && launched == old(launched)
    {
      currentPage := page;
    }

    /** The adapter's `onItemClick`: an image flips the action group's visibility; a
        video starts a view request for its uri as "video/mp4" and leaves the
        visibility alone. */
    method OnItemClick(click: ItemClick)
      modifies this
      ensures !click.isVideo ==> actionsVisibility == Toggle(old(actionsVisibility)) && launched == old(launched)
      ensures click.isVideo ==> actionsVisibility == old(actionsVisibility)
                                && launched == old(launched) + [ViewRequest(click.uri, PlaybackMimeType)]
      ensures currentPage == old(currentPage) && store == old(store) && backPresses == old(backPresses)
    {
      if !click.isVideo {
        actionsVisibility := Toggle(actionsVisibility);
      } else {
        launched := launched + [ViewRequest(click.uri, PlaybackMimeType)];
      }
    }

    /** The adapter's `onDeleteClick`: navigate back when the list became empty, and in
        every case delete the uri from the store. */
    method OnDeleteClick(notice: DeleteNotice)
      modifies this
      ensures backPresses == old(backPresses) + (if notice.isEmpty then 1 else 0)
      ensures store == old(store) - {notice.uri}
      ensures currentPage == old(currentPage) && actionsVisibility == old(actionsVisibility)
      ensures launched == old(launched)
    {
      if notice.isEmpty {
        backPresses := backPresses + 1;
      }
      store := store - {notice.uri};
    }

    /** The delete button: delete at `currentPage` through the adapter. In range, the
        record leaves the list and its uri leaves the store, and the screen navigates
        back exactly when the list became empty; `currentPage` is never adjusted.
        Out of range (a stale page), nothing changes. */
    method DeleteImage()
      modifies this, mediaAdapter
      ensures currentPage == old(currentPage) && actionsVisibility == old(actionsVisibility)
      ensures launched == old(launched)
      ensures !(0 <= currentPage < |old(mediaAdapter.mediaList)|) ==>
                mediaAdapter.mediaList == old(mediaAdapter.mediaList)
                && store == old(store) && backPresses == old(backPresses)
      ensures 0 <= currentPage < |old(mediaAdapter.mediaList)| ==>
                && mediaAdapter.mediaList == RemoveAt(old(mediaAdapter.mediaList), currentPage)
                && store == old(store) - {old(mediaAdapter.mediaList)[currentPage].uri}
                && backPresses == old(backPresses) + (if mediaAdapter.mediaList == [] then 1 else 0)
      ensures old(InStore()) && old(UniqueUris(mediaAdapter.mediaList)) ==>
                InStore() && UniqueUris(mediaAdapter.mediaList)
    {
      ghost var before := mediaAdapter.mediaList;
      var notice := mediaAdapter.DeleteImage(currentPage);
      if notice.Some? {
        OnDeleteClick(notice.value);
        if UrisOf(before) <= old(store) && UniqueUris(before) {
          RemoveAtUris(before, currentPage);
        }
      }
    }

    /** A click on the bound view at `position` reaches this fragment's item handler
        with that record's kind and uri. */
    method ClickItem(holder: ViewHolder, position: int)
      requires 0 <= position < |mediaAdapter.mediaList|
      modifies this
      ensures var item := mediaAdapter.mediaList[position];
              && (!item.isVideo ==> actionsVisibility == Toggle(old(actionsVisibility)) && launched == old(launched))
              && (item.isVideo ==> actionsVisibility == old(actionsVisibility)
                                   && launched == old(launched) + [ViewRequest(item.uri, PlaybackMimeType)])
      ensures currentPage == old(currentPage) && store == old(store) && backPresses == old(backPresses)
    {
      var click := mediaAdapter.ClickAt(holder, position);
      OnItemClick(click);
    }
  }

  /** Deleting the last of two pages does not adjust `currentPage`, so if no page-selected
      event arrives between the two presses, `currentPage` is one past the end and the
      second press of the delete button deletes nothing more. Page-selected events are
      inputs here; whether the pager re-selects a page after the list shrinks is not
      decided by the model. */
  method StalePageScenario(a: Media, b: Media)
    returns (afterFirst: seq<Media>, afterSecond: seq<Media>, page: int, storeAfter: set<Uri>)
    requires a.uri != b.uri
    ensures afterFirst == [a] && afterSecond == [a]
    ensures page == 1 && storeAfter == {a.uri}
  {
    var fragment := new PreviewMediaFragment({a.uri, b.uri}, Visible);
    fragment.mediaAdapter.SubmitList([a, b]);
    fragment.OnPageSelected(1);
    fragment.DeleteImage();
    afterFirst := fragment.mediaAdapter.mediaList;
    fragment.DeleteImage();
    afterSecond := fragment.mediaAdapter.mediaList;
    page := fragment.currentPage;
    storeAfter := fragment.store;
  }
}
