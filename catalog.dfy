/** The catalog query of fragments/BaseFragment.kt: the owned output directory, the
    permission list, and `queryMedia` / `getMediaQPlus`, which keep only the rows stored
    in the owned directory and list videos before images. The content resolver is
    abstracted as the rows its cursor yields, in the store's order. */
module Catalog {
  import opened Wrappers
  import opened Records
  import opened Permissions

  /** Environment.DIRECTORY_DCIM. */
  const DirectoryDcim: string := "DCIM"

  /** The suffix every owned directory ends with. */
  const CosmoFocusSuffix: string := "/CosmoFocus/"

  /** One cursor row of `queryMedia`: _ID, RELATIVE_PATH and DATE_TAKEN. */
  datatype PathRow = PathRow(id: Long, relativePath: string, dateTaken: Long)

  /** `outputDirectory`: the relative DCIM path from Android Q on, otherwise the
      app-specific external DCIM directory (a null directory is rendered "null" by the
      string template). */
  function OutputDirectory(sdk: int, externalFilesDcim: Option<string>): (dir: string)
    ensures |dir| >= |CosmoFocusSuffix| && dir[|dir| - |CosmoFocusSuffix|..] == CosmoFocusSuffix
    ensures sdk >= SdkQ ==> dir == "DCIM/CosmoFocus/"
  {
    var base := if sdk >= SdkQ then DirectoryDcim
                else match externalFilesDcim
                     case Some(path) => path
                     case None => "null";
    base + CosmoFocusSuffix
  }

  /** The permission list: CAMERA and RECORD_AUDIO, plus ACCESS_MEDIA_LOCATION from
      Android Q on. */
  function BasePermissions(sdk: int): (ps: seq<Permission>)
    ensures Camera in ps && RecordAudio in ps
    ensures AccessMediaLocation in ps <==> sdk >= SdkQ
    ensures |ps| == if sdk >= SdkQ then 3 else 2
  {
    [Camera, RecordAudio] + (if sdk >= SdkQ then [AccessMediaLocation] else [])
  }

  /** BaseFragment's permission-result callback: a refusal shows the snackbar whose OK
      button finishes the activity, when a view is attached. */
  function BaseOnPermissionsResult(results: map<Permission, bool>, viewAttached: bool): (a: ResultAction)
    ensures a == GrantedCallback <==> forall p :: p in results ==> results[p]
    ensures a != GrantedCallback ==> (viewAttached ==> a == NoPermissionsSnackbar(true)) && (!viewAttached ==> a == NoView)
  {
    OnPermissionsResult(results, viewAttached, true)
  }

  /** `allPermissionsGranted` over the base list, spelled out per permission. */
  lemma BaseAllGranted(sdk: int, granted: set<Permission>)
    ensures AllGranted(BasePermissions(sdk), granted)
            <==> Camera in granted && RecordAudio in granted
                 && (sdk >= SdkQ ==> AccessMediaLocation in granted)
  {
    var ps := BasePermissions(sdk);
    if Camera in granted && RecordAudio in granted && (sdk >= SdkQ ==> AccessMediaLocation in granted) {
      forall p | p in ps ensures p in granted {
        assert p == Camera || p == RecordAudio || p == AccessMediaLocation;
      }
    }
  }

  /** The record for a kept row: the queried collection with the row id appended, a
      video exactly when the video collection was queried. */
  function RecordFor(collection: Collection, row: PathRow): (m: Media)
  {
    Media(Uri(collection, row.id), collection == VideoExternal, row.dateTaken)
  }

  /** The records `queryMedia` collects from the rows of one collection: one per row
      whose relative path is exactly the owned directory, in cursor order. */
  function OwnedRecords(collection: Collection, rows: seq<PathRow>, dir: string): (r: seq<Media>)
    ensures |r| <= |rows|
    ensures forall m :: m in r ==> m.uri.collection == collection
                                   && m.isVideo == (collection == VideoExternal)
  {
    if rows == [] then []
    else (if rows[0].relativePath == dir then [RecordFor(collection, rows[0])] else [])
         + OwnedRecords(collection, rows[1..], dir)
  }

  /** `queryMedia` as a value: a null cursor yields no records. */
  function QueryResult(collection: Collection, cursor: Option<seq<PathRow>>, dir: string): (items: seq<Media>)
  {
    match cursor
    case None => []
    case Some(rows) => OwnedRecords(collection, rows, dir)
  }

  /** Every record of a query has the kind of the queried collection. */
  lemma QueryResultKind(collection: Collection, cursor: Option<seq<PathRow>>, dir: string, m: Media)
    requires m in QueryResult(collection, cursor, dir)
    ensures m.isVideo == (collection == VideoExternal) && m.uri.collection == collection
  {
  }

  /** Filtering distributes over concatenation: the output keeps the cursor's order. */
  lemma {:induction false} OwnedRecordsAppend(collection: Collection, a: seq<PathRow>, b: seq<PathRow>, dir: string)
    ensures OwnedRecords(collection, a + b, dir)
            == OwnedRecords(collection, a, dir) + OwnedRecords(collection, b, dir)
  {
    if a != [] {
      var head := if a[0].relativePath == dir then [RecordFor(collection, a[0])] else [];
      assert (a + b)[0] == a[0] && (a + b)[1..] == a[1..] + b;
      assert OwnedRecords(collection, a + b, dir) == head + OwnedRecords(collection, a[1..] + b, dir);
      OwnedRecordsAppend(collection, a[1..], b, dir);
      assert OwnedRecords(collection, a, dir) == head + OwnedRecords(collection, a[1..], dir);
    } else {
      assert a + b == b;
    }
  }

  /** A record is in the output exactly when some row in the owned directory produced it. */
  lemma {:induction false} OwnedRecordsMembership(collection: Collection, rows: seq<PathRow>, dir: string, m: Media)
    ensures m in OwnedRecords(collection, rows, dir)
            <==> exists i :: 0 <= i < |rows| && rows[i].relativePath == dir && m == RecordFor(collection, rows[i])
  {
    if rows != [] {
      OwnedRecordsMembership(collection, rows[1..], dir, m);
      if exists i :: 0 <= i < |rows| && rows[i].relativePath == dir && m == RecordFor(collection, rows[i]) {
        var i :| 0 <= i < |rows| && rows[i].relativePath == dir && m == RecordFor(collection, rows[i]);
        if i > 0 {
          assert rows[1..][i - 1] == rows[i];
        }
      }
      if m in OwnedRecords(collection, rows[1..], dir) {
        var i :| 0 <= i < |rows[1..]| && rows[1..][i].relativePath == dir && m == RecordFor(collection, rows[1..][i]);
        assert rows[i + 1] == rows[1..][i];
      }
    }
  }

  /** When every row is in the owned directory, every row yields its record at the
      same position. */
  lemma {:induction false} AllOwnedRowsKept(collection: Collection, rows: seq<PathRow>, dir: string)
    requires forall i :: 0 <= i < |rows| ==> rows[i].relativePath == dir
    ensures |OwnedRecords(collection, rows, dir)| == |rows|
    ensures forall i :: 0 <= i < |rows| ==> OwnedRecords(collection, rows, dir)[i] == RecordFor(collection, rows[i])
  {
    if rows != [] {
      AllOwnedRowsKept(collection, rows[1..], dir);
    }
  }

  /** `queryMedia`: walks the cursor, appending the record of each row stored in the
      owned directory. */
  method QueryMedia(collection: Collection, cursor: Option<seq<PathRow>>, outputDirectory: string)
    returns (items: seq<Media>)
    ensures items == QueryResult(collection, cursor, outputDirectory)
  {
    items := [];
    if cursor.Some? {
      var rows := cursor.value;
      var i := 0;
      while i < |rows|
        invariant 0 <= i <= |rows|
        invariant items == OwnedRecords(collection, rows[..i], outputDirectory)
      {
        var row := rows[i];
        var contentUri := Uri(collection, row.id);
        if row.relativePath == outputDirectory {
          items := items + [Media(contentUri, collection == VideoExternal, row.dateTaken)];
        }
        assert rows[..i + 1] == rows[..i] + [row];
        OwnedRecordsAppend(collection, rows[..i], [row], outputDirectory);
        i := i + 1;
      }
      assert rows[..i] == rows;
    }
  }

  /** `getMediaQPlus` (what `getMedia` returns): the owned videos followed by the owned
      images, each in its cursor's order. */
  method GetMediaQPlus(videoCursor: Option<seq<PathRow>>, imageCursor: Option<seq<PathRow>>, outputDirectory: string)
    returns (items: seq<Media>)
    ensures items == QueryResult(VideoExternal, videoCursor, outputDirectory)
                     + QueryResult(ImagesExternal, imageCursor, outputDirectory)
    ensures forall i, j :: 0 <= i < j < |items| && items[j].isVideo ==> items[i].isVideo
  {
    var videoItems := QueryMedia(VideoExternal, videoCursor, outputDirectory);
    var imageItems := QueryMedia(ImagesExternal, imageCursor, outputDirectory);
    items := videoItems + imageItems;
    forall i, j | 0 <= i < j < |items| && items[j].isVideo ensures items[i].isVideo {
      assert items[i] == videoItems[i];
      QueryResultKind(VideoExternal, videoCursor, outputDirectory, items[i]);
    }
  }

  /** A store holding two owned images and one video outside the owned directory lists
      exactly the two images. */
  lemma ForeignVideoExcluded(image1: PathRow, image2: PathRow, video: PathRow, dir: string)
    requires image1.relativePath == dir && image2.relativePath == dir && video.relativePath != dir
    ensures QueryResult(VideoExternal, Some([video]), dir) + QueryResult(ImagesExternal, Some([image1, image2]), dir)
            == [RecordFor(ImagesExternal, image1), RecordFor(ImagesExternal, image2)]
  {
    assert [image1, image2][1..] == [image2] && [image2][1..] == [] && [video][1..] == [];
    assert OwnedRecords(VideoExternal, [video], dir) == [];
    assert OwnedRecords(ImagesExternal, [image2], dir) == [RecordFor(ImagesExternal, image2)];
  }
}
