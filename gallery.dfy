/** The grid screen of fragments/GalleryFragment.kt: it loads every image and video row
    of the store (no directory filter) and hands the list to a fresh adapter whose
    click and delete callbacks do nothing. */
module Gallery {
  import opened Wrappers
  import opened Records
  import opened Permissions
  import opened Adapter
  import opened StoreCatalog

  class GalleryFragment {
    /** `lateinit var mediaAdapter`: null until the view is created. */
    var mediaAdapter: MediaAdapter?

    constructor ()
      ensures mediaAdapter == null
    {
      mediaAdapter := null;
    }

    /** `loadMediaFromStorage`: the same row mapping as `getMediaStore` (the DATA column
        is read and left unused), one record per row in cursor order. */
    method LoadMediaFromStorage(contextAvailable: bool, cursor: Option<seq<StoreRow>>) returns (mediaList: seq<Media>)
      ensures mediaList == StoreQuery(contextAvailable, cursor)
      ensures |mediaList| == if contextAvailable && cursor.Some? then |cursor.value| else 0
    {
      mediaList := [];
      if contextAvailable && cursor.Some? {
        var rows := cursor.value;
        var i := 0;
        while i < |rows|
          invariant 0 <= i <= |rows|
          invariant mediaList == StoreRecords(rows[..i])
        {
          var row := rows[i];
          var uri := Uri(if IsVideoMime(row.mimeType) then VideoExternal else ImagesExternal, row.id);
          var isVideo := IsVideoMime(row.mimeType);
          mediaList := mediaList + [Media(uri, isVideo, row.dateAdded)];
          assert rows[..i + 1] == rows[..i] + [row];
          StoreRecordsAppend(rows[..i], [row]);
          i := i + 1;
        }
        assert rows[..i] == rows;
      }
    }

    /** `onViewCreated`: the inherited permission gate runs first (its grant callback is
        the default no-op), then a new adapter receives the loaded list, granted or not. */
    method OnViewCreated(granted: set<Permission>, contextAvailable: bool, cursor: Option<seq<StoreRow>>)
      returns (gate: GateAction)
      modifies this
      ensures gate == LifecycleGate(granted)
      ensures mediaAdapter != null && fresh(mediaAdapter)
      ensures mediaAdapter.mediaList == StoreQuery(contextAvailable, cursor)
    {
      gate := LifecycleGate(granted);
      mediaAdapter := new MediaAdapter();
      var mediaList := LoadMediaFromStorage(contextAvailable, cursor);
      mediaAdapter.SubmitList(mediaList);
    }

    /** `handleDelete`: an empty handler, so the adapter's delete notice changes nothing here. */
    method HandleDelete(notice: DeleteNotice)
      ensures unchanged(this)
      ensures mediaAdapter != null ==> unchanged(mediaAdapter)
    {
    }

    /** `openMedia`: an empty handler, so a click changes nothing here. */
    method OpenMedia(click: ItemClick)
      ensures unchanged(this)
      ensures mediaAdapter != null ==> unchanged(mediaAdapter)
    {
    }
  }
}
