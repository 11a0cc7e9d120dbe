# PhotoGalleryApp media-list workflow in Dafny

This project models the media-list workflow of the PhotoGalleryApp Android application
(package `com.example.photogalleryapp`) and proves properties of the model:

- the immutable media record `Media(uri, isVideo, date)` and the identity and content predicates of
  `MediaDiffCallback` (module `Records`);
- the list presenter `MediaAdapter`, a class over one `seq<Media>` field with `submitList`,
  `getItemCount`, `getItemViewType`, `onCreateViewHolder`, click dispatch in `bind` and the
  bounds-checked `deleteImage` (module `Adapter`);
- the permission gate that both fragment bases share: "all granted", the lifecycle check, and the
  permission-result rule (module `Permissions`);
- the catalog query of `BaseFragment`: the owned output directory, the SDK-dependent permission list, and
  `queryMedia`/`getMediaQPlus`, which keep only rows whose relative path equals the output directory and
  list videos before images (module `Catalog`);
- the row mapping of `StoreBaseFragment.getMediaStore`, with its MIME-type classification and no directory
  filter (module `StoreCatalog`), and its duplicate `GalleryFragment.loadMediaFromStorage` (module `Gallery`);
- the pager controller `PreviewMediaFragment`: the `currentPage` cursor, the visibility toggle, playback
  requests, and the delete flow from the delete button through the adapter to the content store
  (module `Preview`);
- the fling classifier `SwipeDetector.onFling` (module `Swipe`).

Abstractions:

- A content uri is the opaque pair `Uri(collection, id)`, which is what `ContentUris.withAppendedId` builds.
- The content resolver is replaced by the rows its cursor would yield, in the store's order. A null
  cursor is `None`. A missing `context` is a boolean parameter.
- Kotlin's `Long` is the newtype `Records.Long`, the 64-bit signed range. Every date and row id is such a value.
- The adapter's owner callbacks are returned as values. `deleteImage` returns the `DeleteNotice` it
  would pass to `onDeleteClick`, and `ClickAt` returns the `ItemClick` passed to `onItemClick`. The owning
  fragment then applies them (`Preview.PreviewMediaFragment.OnDeleteClick`, `OnItemClick`).
- The content store of the preview screen is the set of uris it still holds.
- Navigation back is a counter, and started playback activities are a list of recorded view requests.
- Granted permissions are a set. A permission-result callback receives a map from permission to boolean.

Behaviour of the code worth knowing before reading the model:

- Only `BaseFragment.queryMedia` filters by directory (BaseFragment.kt:142). `StoreBaseFragment.getMediaStore`
  and `GalleryFragment.loadMediaFromStorage` keep every image and video row. `PreviewMediaFragment` extends
  `StoreBaseFragment`, so its `getMedia()` is the unfiltered one.
- `submitList` redraws everything (`notifyDataSetChanged`, MediaAdapter.kt:47). `MediaDiffCallback` is not
  used by the adapter; its predicates are modelled and proved on their own.
- `GalleryFragment` loads and shows the list whether or not permissions are granted. Its
  `onPermissionGranted` is the inherited no-op.

## Model

| member | source | states |
|---|---|---|
| Records.MediaEquality | app/src/main/java/com/example/photogalleryapp/adapter/Media.kt:6-10 | two records are equal exactly when uri, kind and date are all equal |
| Records.AreItemsTheSame | app/src/main/java/com/example/photogalleryapp/adapter/MediaDiffCallback.kt:7 | same item holds exactly when the uris agree on collection and id |
| Records.AreContentsTheSame | app/src/main/java/com/example/photogalleryapp/adapter/MediaDiffCallback.kt:9 | same contents holds exactly when the records are the same item and also agree on kind and date |
| Records.ContentsImplyItems | app/src/main/java/com/example/photogalleryapp/adapter/MediaDiffCallback.kt:7-9 | same contents implies same item |
| Records.DiffPredicatesReflexiveSymmetric | app/src/main/java/com/example/photogalleryapp/adapter/MediaDiffCallback.kt:7-9 | both diff predicates are reflexive and symmetric |
| Records.RedatedIsSameItemNewContents | app/src/main/java/com/example/photogalleryapp/adapter/MediaDiffCallback.kt:7-9 | equal uri with a different date is the same item with different contents |
| Adapter.CreateViewHolder | app/src/main/java/com/example/photogalleryapp/adapter/MediaAdapter.kt:21-31 | a holder is created exactly for view types 1 (image holder) and 2 (video holder); every other type is the invalid-view-type error |
| Adapter.ViewTypeOf | app/src/main/java/com/example/photogalleryapp/adapter/MediaAdapter.kt:42 | the view type is always 1 or 2, and 2 exactly for a video |
| Adapter.ReportedViewTypeAccepted | app/src/main/java/com/example/photogalleryapp/adapter/MediaAdapter.kt:23-43 | the view type reported for any record is accepted by onCreateViewHolder and selects the video holder exactly for a video |
| Adapter.Bind | app/src/main/java/com/example/photogalleryapp/adapter/MediaAdapter.kt:64-80 | whichever holder binds a record, its click listener reports that record's kind and uri |
| Adapter.RemoveAt | app/src/main/java/com/example/photogalleryapp/adapter/MediaAdapter.kt:53-54 | removal at p shortens the list by one; elements before p stay, elements after p shift down by one in order |
| Adapter.RemoveAtMultiset | app/src/main/java/com/example/photogalleryapp/adapter/MediaAdapter.kt:53-54 | removal takes exactly one copy of the removed record out of the list |
| Adapter.RemoveAtUris | app/src/main/java/com/example/photogalleryapp/adapter/MediaAdapter.kt:50-57 | in a listing with unique uris, removal keeps uris unique and removes exactly the removed record's uri |
| Adapter.MediaAdapter.constructor | app/src/main/java/com/example/photogalleryapp/adapter/MediaAdapter.kt:19 | a new adapter holds the empty list |
| Adapter.MediaAdapter.GetItemCount | app/src/main/java/com/example/photogalleryapp/adapter/MediaAdapter.kt:37-39 | the count is the length of the held list |
| Adapter.MediaAdapter.GetItemViewType | app/src/main/java/com/example/photogalleryapp/adapter/MediaAdapter.kt:41-43 | for an in-range position the type is 2 iff the record is a video and 1 iff it is an image |
| Adapter.MediaAdapter.ClickAt | app/src/main/java/com/example/photogalleryapp/adapter/MediaAdapter.kt:33-35 | clicking the view bound at a position dispatches the kind and uri of exactly that record |
| Adapter.MediaAdapter.SubmitList | app/src/main/java/com/example/photogalleryapp/adapter/MediaAdapter.kt:45-48 | the held list becomes exactly the submitted list; the previous one is discarded |
| Adapter.MediaAdapter.DeleteImage | app/src/main/java/com/example/photogalleryapp/adapter/MediaAdapter.kt:50-58 | out of range: list unchanged, no notice; in range: list is the old list without that position, and one notice carries whether the new list is empty and the removed uri |
| Adapter.DeleteScenarios | app/src/main/java/com/example/photogalleryapp/adapter/MediaAdapter.kt:50-58 | deleting the middle of three keeps the outer two in order with a not-empty notice; deleting the only record gives an empty notice |
| Permissions.Gate | app/src/main/java/com/example/photogalleryapp/fragments/BaseFragment.kt:79-86 | the grant callback runs iff every listed permission is granted, otherwise exactly the list is requested |
| Permissions.OnPermissionsResult | app/src/main/java/com/example/photogalleryapp/fragments/BaseFragment.kt:52-62 | the grant callback runs iff every result is true; on a refusal the snackbar is shown iff a view is attached, with the caller's OK action |
| Permissions.AllGranted | app/src/main/java/com/example/photogalleryapp/fragments/BaseFragment.kt:153-155 | all granted holds exactly when the set of listed permissions is a subset of the granted ones |
| Permissions.OneRefusalBlocks | app/src/main/java/com/example/photogalleryapp/fragments/BaseFragment.kt:52-54 | one false result prevents the grant callback |
| Permissions.EmptyResultGrants | app/src/main/java/com/example/photogalleryapp/fragments/BaseFragment.kt:53 | an empty result map runs the grant callback |
| Catalog.BaseOnPermissionsResult | app/src/main/java/com/example/photogalleryapp/fragments/BaseFragment.kt:52-62 | the grant callback runs iff every result is true; a refusal shows the snackbar that finishes the activity on OK iff a view is attached |
| Catalog.OutputDirectory | app/src/main/java/com/example/photogalleryapp/fragments/BaseFragment.kt:34-40 | the directory always ends in "/CosmoFocus/" and is "DCIM/CosmoFocus/" from Android Q on |
| Catalog.BasePermissions | app/src/main/java/com/example/photogalleryapp/fragments/BaseFragment.kt:43-50 | CAMERA and RECORD_AUDIO are listed; ACCESS_MEDIA_LOCATION is listed iff the SDK is at least Q |
| Catalog.BaseAllGranted | app/src/main/java/com/example/photogalleryapp/fragments/BaseFragment.kt:153-155 | all granted holds iff CAMERA, RECORD_AUDIO and, from Q on, ACCESS_MEDIA_LOCATION are granted |
| Catalog.OwnedRecords | app/src/main/java/com/example/photogalleryapp/fragments/BaseFragment.kt:135-146 | at most one record per row; every record has the queried collection and is a video iff the video collection was queried |
| Catalog.QueryResultKind | app/src/main/java/com/example/photogalleryapp/fragments/BaseFragment.kt:140-143 | every queried record's uri base and kind follow the queried collection, also for a null cursor |
| Catalog.OwnedRecordsAppend | app/src/main/java/com/example/photogalleryapp/fragments/BaseFragment.kt:135-146 | the filter distributes over concatenated cursors, so cursor order is preserved |
| Catalog.OwnedRecordsMembership | app/src/main/java/com/example/photogalleryapp/fragments/BaseFragment.kt:140-143 | a record is output iff some row whose relative path equals the output directory produced it |
| Catalog.AllOwnedRowsKept | app/src/main/java/com/example/photogalleryapp/fragments/BaseFragment.kt:135-146 | when every row is in the output directory, the output has one record per row at the same position |
| Catalog.QueryMedia | app/src/main/java/com/example/photogalleryapp/fragments/BaseFragment.kt:120-148 | the cursor loop yields the filtered records of the rows, and no records for a null cursor |
| Catalog.GetMediaQPlus | app/src/main/java/com/example/photogalleryapp/fragments/BaseFragment.kt:88-117 | the result is the owned videos followed by the owned images, and no image precedes a video |
| Catalog.ForeignVideoExcluded | app/src/main/java/com/example/photogalleryapp/fragments/BaseFragment.kt:142 | two owned images and one foreign video list exactly the two images |
| StoreCatalog.IsVideoMime | app/src/main/java/com/example/photogalleryapp/fragments/StoreBaseFragment.kt:101-105 | a MIME type is a video type exactly when its first five characters are "video" |
| StoreCatalog.StoreConstants | app/src/main/java/com/example/photogalleryapp/fragments/StoreBaseFragment.kt:25-26 | the output directory is "DCIM/CosmoFocus/" and the permission list is exactly CAMERA, RECORD_AUDIO |
| StoreCatalog.StoreOnPermissionsResult | app/src/main/java/com/example/photogalleryapp/fragments/StoreBaseFragment.kt:28-36 | the grant callback runs iff every result is true; a refusal shows a snackbar without action iff a view is attached |
| StoreCatalog.StoreRecord | app/src/main/java/com/example/photogalleryapp/fragments/StoreBaseFragment.kt:96-107 | a row is a video iff its MIME type starts with "video", its uri base is the video collection iff so, and it keeps the row id and date |
| StoreCatalog.StoreRecords | app/src/main/java/com/example/photogalleryapp/fragments/StoreBaseFragment.kt:95-108 | exactly one record per row |
| StoreCatalog.StoreRecordsAt | app/src/main/java/com/example/photogalleryapp/fragments/StoreBaseFragment.kt:95-108 | the i-th record is the mapping of the i-th row: no directory filter, no reordering |
| StoreCatalog.StoreRecordsAppend | app/src/main/java/com/example/photogalleryapp/fragments/StoreBaseFragment.kt:95-108 | the mapping distributes over concatenated cursors |
| StoreCatalog.DistinctIdsUniqueUris | app/src/main/java/com/example/photogalleryapp/fragments/StoreBaseFragment.kt:95-108 | rows with distinct ids give a listing in which no uri appears twice |
| StoreCatalog.GetMediaStore | app/src/main/java/com/example/photogalleryapp/fragments/StoreBaseFragment.kt:64-112 | the cursor loop yields the mapping of every row, and no records for a missing context or a null cursor |
| StoreCatalog.LifecycleGate | app/src/main/java/com/example/photogalleryapp/fragments/StoreBaseFragment.kt:44-60 | onResume and onViewCreated run the grant callback iff CAMERA and RECORD_AUDIO are granted, else request exactly those two |
| StoreCatalog.SameOutputDirectoryFromQ | app/src/main/java/com/example/photogalleryapp/fragments/StoreBaseFragment.kt:25 | the constant output directory equals BaseFragment's from Android Q on |
| StoreCatalog.BaseGrantCoversStore | app/src/main/java/com/example/photogalleryapp/fragments/StoreBaseFragment.kt:114-116 | all granted over BaseFragment's list implies all granted over the two-permission list |
| Gallery.GalleryFragment.constructor | app/src/main/java/com/example/photogalleryapp/fragments/GalleryFragment.kt:26 | the lateinit adapter is unset before the view is created |
| Gallery.GalleryFragment.LoadMediaFromStorage | app/src/main/java/com/example/photogalleryapp/fragments/GalleryFragment.kt:80-132 | one record per row in cursor order with no directory filter; empty for a missing context or a null cursor |
| Gallery.GalleryFragment.OnViewCreated | app/src/main/java/com/example/photogalleryapp/fragments/GalleryFragment.kt:38-56 | the gate runs, then a fresh adapter holds exactly the loaded list |
| Gallery.GalleryFragment.HandleDelete | app/src/main/java/com/example/photogalleryapp/fragments/GalleryFragment.kt:71-73 | a delete notice changes nothing |
| Gallery.GalleryFragment.OpenMedia | app/src/main/java/com/example/photogalleryapp/fragments/GalleryFragment.kt:75-76 | an item click changes nothing |
| Preview.Toggle | app/src/main/java/com/example/photogalleryapp/fragments/PreviewMediaFragment.kt:20 | an image click always changes the visibility |
| Preview.ToggleTwice | app/src/main/java/com/example/photogalleryapp/fragments/PreviewMediaFragment.kt:19-21 | two image clicks restore the visibility |
| Preview.PreviewMediaFragment.constructor | app/src/main/java/com/example/photogalleryapp/fragments/PreviewMediaFragment.kt:17-34 | a new fragment has an empty adapter and currentPage 0, so every listed uri is trivially in the store and unique |
| Preview.PreviewMediaFragment.OnViewCreated | app/src/main/java/com/example/photogalleryapp/fragments/PreviewMediaFragment.kt:37-47 | the adapter receives getMedia() iff all permissions are granted, otherwise keeps its list; when the store holds every loaded uri and row ids are distinct, every listed uri is in the store and unique |
| Preview.PreviewMediaFragment.OnPageSelected | app/src/main/java/com/example/photogalleryapp/fragments/PreviewMediaFragment.kt:45 | currentPage becomes the selected page and nothing else changes |
| Preview.PreviewMediaFragment.OnItemClick | app/src/main/java/com/example/photogalleryapp/fragments/PreviewMediaFragment.kt:18-26 | an image toggles the visibility; a video adds one view request with its uri and "video/mp4" and leaves the visibility alone |
| Preview.PreviewMediaFragment.OnDeleteClick | app/src/main/java/com/example/photogalleryapp/fragments/PreviewMediaFragment.kt:27-32 | navigate back iff the list is empty, and always delete the uri from the store |
| Preview.PreviewMediaFragment.DeleteImage | app/src/main/java/com/example/photogalleryapp/fragments/PreviewMediaFragment.kt:60-62 | deletes at currentPage through the adapter: in range the record leaves list and store, out of range nothing changes; currentPage is never adjusted; listed uris stay in the store and unique |
| Preview.PreviewMediaFragment.ClickItem | app/src/main/java/com/example/photogalleryapp/fragments/PreviewMediaFragment.kt:18-26 | a click on a bound page reaches the item handler with that record's kind and uri |
| Preview.StalePageScenario | app/src/main/java/com/example/photogalleryapp/fragments/PreviewMediaFragment.kt:34-62 | with no page-selected event between the two presses, deleting the last of two pages leaves currentPage stale and the second delete a no-op |
| Swipe.OnFling | app/src/main/java/com/example/photogalleryapp/utils/SwipeDetector.kt:12-27 | no start event: delegated; otherwise consumed, with left swipe iff deltaX >= 100, right swipe iff deltaX <= -100, no callback iff abs(deltaX) < 100 |
| Swipe.OnlyDeltaXMatters | app/src/main/java/com/example/photogalleryapp/utils/SwipeDetector.kt:15-24 | the outcome depends only on e1.x - e2.x, not on y or velocities |

## Left out

- Camera fragments (`PhotoCameraFragment`, `PhotoCameraFragmentStore`, `VideoCameraFragment`): they bind camera use cases and react to asynchronous recorder callbacks.
- `PreviewFragment`, `PhotoPreviewFragment`, `VideoPreviewFragment`, `CosmoFocusApp`, `CamXApp`, `utils/Extensions.kt`: these are player, image-view, library-configuration and layout wrappers. `PreviewFragment` is not part of this model; it calls a `shareImage` that `MediaAdapter` does not have.
- The content resolver's selection and sort strings: the store's row order is taken as given.
- The MEDIA_TYPE selection of the store query is also taken as given: the model receives only image and video rows.
- Image loading, RecyclerView notifications, snackbar display and `finishAffinity` are UI. Each is represented only by the action value or counter that records it.
- Coroutine dispatch and the ordering of lifecycle callbacks are concurrency and lifecycle plumbing.
- StoreCatalog.GetMediaStore: a row with a NULL MIME type makes `getMediaStore` (and `GalleryFragment.loadMediaFromStorage`) throw a NullPointerException at `startsWith`; the model's rows always carry a MIME type string, so that exception is not captured.
- Preview.StalePageScenario: whether ViewPager2 re-selects a remaining page (firing `onPageSelected`) after `notifyDataSetChanged` shrinks the list is not modelled; page-selected events are inputs, and the scenario assumes none arrives between the two presses.
- A failed `resolver.delete` is not modelled: the store always drops the uri.
- Adapter.MediaAdapter.GetItemViewType: requires an in-range position. The Kotlin code would throw an index exception otherwise, and RecyclerView never asks for one.
- Adapter.MediaAdapter.ClickAt: requires an in-range position, as RecyclerView binds only existing positions.
- Swipe.OnFling: with no start event, the superclass's return value is not modelled; the result is only marked as delegated. Float rounding and NaN coordinates are not modelled either, because coordinates are reals.
- Catalog.QueryMedia: before Android Q the RELATIVE_PATH column does not exist, so `getColumnIndexOrThrow` would throw. The model does not capture that exception.
- Preview.PreviewMediaFragment.OnDeleteClick: counts every back navigation. In `PreviewMediaFragment`, `onBackPressed` acts only when a view is attached, and that is not tracked.
- `requireContext()` throwing on a detached fragment is not modelled.
- The date column differs between the catalogs (DATE_TAKEN in `BaseFragment`, DATE_ADDED in the store-based ones). The model copies whichever column was read and does not interpret its unit.
