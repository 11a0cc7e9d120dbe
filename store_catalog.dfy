/** The catalog of fragments/StoreBaseFragment.kt: one query over the whole files
    collection that maps every image or video row to a record, classifying rows by MIME
    type and applying no directory filter; plus its fixed output directory, its
    two-permission list and the lifecycle gate. */
module StoreCatalog {
  import opened Wrappers
  import opened Records
  import opened Permissions
  import Catalog
  import opened Adapter

  /** `outputDirectory`: DCIM plus "/CosmoFocus/", whatever the SDK. */
  const OutputDirectory: string := Catalog.DirectoryDcim + Catalog.CosmoFocusSuffix

  /** `permissions`: CAMERA and RECORD_AUDIO. */
  const StorePermissions: seq<Permission> := [Camera, RecordAudio]

  /** One cursor row: _ID, DATA, DATE_ADDED and MIME_TYPE. */
  datatype StoreRow = StoreRow(id: Long, data: string, dateAdded: Long, mimeType: string)

  /** `mimeType.startsWith("video")`. */
  function IsVideoMime(mimeType: string): (video: bool)
    ensures video <==> |mimeType| >= 5 && mimeType[..5] == "video"
  {
    "video" <= mimeType
  }

  /** The record for one row: a video exactly when its MIME type starts with "video",
      and its uri the matching collection with the row id appended. */
  function StoreRecord(row: StoreRow): (m: Media)
    ensures m.isVideo <==> IsVideoMime(row.mimeType)
    ensures m.uri.collection == VideoExternal <==> IsVideoMime(row.mimeType)
    ensures m.uri.id == row.id && m.date == row.dateAdded
  {
    var uri := Uri(if IsVideoMime(row.mimeType) then VideoExternal else ImagesExternal, row.id);
    Media(uri, IsVideoMime(row.mimeType), row.dateAdded)
  }

  /** The records of a cursor, one per row, in cursor order. */
  function StoreRecords(rows: seq<StoreRow>): (r: seq<Media>)
    ensures |r| == |rows|
  {
    if rows == [] then [] else [StoreRecord(rows[0])] + StoreRecords(rows[1..])
  }

  /** `getMediaStore` as a value: a missing context or a null cursor yields no records. */
  function StoreQuery(contextAvailable: bool, cursor: Option<seq<StoreRow>>): (mediaList: seq<Media>)
  {
    if !contextAvailable || cursor.None? then [] else StoreRecords(cursor.value)
  }

  /** The i-th record comes from the i-th row: nothing is filtered out, whatever the
      row's DATA path, and nothing is reordered. */
  lemma {:induction false} StoreRecordsAt(rows: seq<StoreRow>, i: int)
    requires 0 <= i < |rows|
    ensures StoreRecords(rows)[i] == StoreRecord(rows[i])
  {
    if i > 0 {
      StoreRecordsAt(rows[1..], i - 1);
    }
  }

  /** Mapping distributes over concatenation of cursors. */
  lemma {:induction false} StoreRecordsAppend(a: seq<StoreRow>, b: seq<StoreRow>)
    ensures StoreRecords(a + b) == StoreRecords(a) + StoreRecords(b)
  {
    if a == [] {
      assert a + b == b;
    } else {
      assert (a + b)[0] == a[0] && (a + b)[1..] == a[1..] + b;
      StoreRecordsAppend(a[1..], b);
    }
  }

  /** `getMediaStore`: walks the cursor, appending one record per row. */
  method GetMediaStore(contextAvailable: bool, cursor: Option<seq<StoreRow>>) returns (mediaList: seq<Media>)
    ensures mediaList == StoreQuery(contextAvailable, cursor)
  {
    mediaList := [];
    if contextAvailable && cursor.Some? {
      var rows := cursor.value;
      var i := 0;
      while i < |rows|
        invariant 0 <= i <= |rows|
        invariant mediaList == StoreRecords(rows[..i])
      {
        var row := rows[i];
        var uri := Uri(if IsVideoMime(row.mimeType) then VideoExternal else ImagesExternal, row.id);
        var isVideo := IsVideoMime(row.mimeType);
        mediaList := mediaList + [Media(uri, isVideo, row.dateAdded)];
        assert rows[..i + 1] == rows[..i] + [row];
        StoreRecordsAppend(rows[..i], [row]);
        i := i + 1;
      }
      assert rows[..i] == rows;
    }
  }

  /** `onViewCreated` and `onResume` both run the grant callback when CAMERA and
      RECORD_AUDIO are granted and request exactly those two otherwise. */
  function LifecycleGate(granted: set<Permission>): (a: GateAction)
    ensures a == RunOnPermissionGranted <==> Camera in granted && RecordAudio in granted
    ensures a.RequestPermissions? ==> a.requested == [Camera, RecordAudio]
  {
    Gate(StorePermissions, granted)
  }

  /** StoreBaseFragment's permission-result callback: a refusal shows a snackbar with no
      action, when a view is attached. */
  function StoreOnPermissionsResult(results: map<Permission, bool>, viewAttached: bool): (a: ResultAction)
    ensures a == GrantedCallback <==> forall p :: p in results ==> results[p]
    ensures a != GrantedCallback ==> (viewAttached ==> a == NoPermissionsSnackbar(false)) && (!viewAttached ==> a == NoView)
  {
    OnPermissionsResult(results, viewAttached, false)
  }

  /** The two constants of the fragment base: the owned directory and the permission list. */
  lemma StoreConstants()
    ensures OutputDirectory == "DCIM/CosmoFocus/"
    ensures StorePermissions == [Camera, RecordAudio]
  {
  }

  /** No two rows of a cursor share an id. */
  ghost predicate DistinctIds(rows: seq<StoreRow>)
  {
    forall i, j :: 0 <= i < j < |rows| ==> rows[i].id != rows[j].id
  }

  /** Rows with distinct ids give a listing in which every uri is unique. */
  lemma DistinctIdsUniqueUris(rows: seq<StoreRow>)
    requires DistinctIds(rows)
    ensures UniqueUris(StoreRecords(rows))
  {
    var r := StoreRecords(rows);
    forall i, j | 0 <= i < j < |r| ensures r[i].uri != r[j].uri {
      StoreRecordsAt(rows, i);
      StoreRecordsAt(rows, j);
    }
  }

  /** From Android Q on, both fragment bases use the same owned directory. */
  lemma SameOutputDirectoryFromQ(sdk: int, externalFilesDcim: Option<string>)
    requires sdk >= SdkQ
    ensures Catalog.OutputDirectory(sdk, externalFilesDcim) == OutputDirectory
  {
  }

  /** Whatever the SDK, the base list of BaseFragment contains the two permissions
      checked here, so its "all granted" implies this one. */
  lemma BaseGrantCoversStore(sdk: int, granted: set<Permission>)
    requires AllGranted(Catalog.BasePermissions(sdk), granted)
    ensures AllGranted(StorePermissions, granted)
  {
  }
}
