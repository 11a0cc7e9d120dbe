/** The list presenter of adapter/MediaAdapter.kt: the held `mediaList`, its view types,
    click dispatch and the bounds-checked delete that notifies its owner. */
module Adapter {
  import opened Wrappers
  import opened Records

  const ItemTypeImage: int := 1
  const ItemTypeVideo: int := 2

  /** The two kinds of view holder the adapter inflates. */
  datatype ViewHolder = ImageViewHolder | VideoViewHolder

  /** `onCreateViewHolder` either builds a holder or throws IllegalArgumentException. */
  datatype HolderResult = Created(holder: ViewHolder) | InvalidViewType

  /** The arguments the adapter passes to its owner's `onItemClick` callback. */
  datatype ItemClick = ItemClick(isVideo: bool, uri: Uri)

  /** The arguments the adapter passes to its owner's `onDeleteClick` callback. */
  datatype DeleteNotice = DeleteNotice(isEmpty: bool, uri: Uri)

  /** The view type reported for a record. */
  function ViewTypeOf(item: Media): (viewType: int)
    ensures viewType == ItemTypeImage || viewType == ItemTypeVideo
    ensures viewType == ItemTypeVideo <==> item.isVideo
  {
    if item.isVideo then ItemTypeVideo else ItemTypeImage
  }

  /** `onCreateViewHolder`: only the two known view types are accepted. */
  function CreateViewHolder(viewType: int): (r: HolderResult)
    ensures r.Created? <==> viewType == ItemTypeImage || viewType == ItemTypeVideo
    ensures r == Created(VideoViewHolder) <==> viewType == ItemTypeVideo
    ensures r == Created(ImageViewHolder) <==> viewType == ItemTypeImage
  {
    if viewType == ItemTypeImage then Created(ImageViewHolder)
    else if viewType == ItemTypeVideo then Created(VideoViewHolder)
    else InvalidViewType
  }

  /** Every view type the adapter reports is one `onCreateViewHolder` accepts, and it
      yields the holder matching the record's kind, so the throwing branch is never taken
      for a type the adapter itself produced. */
  lemma ReportedViewTypeAccepted(item: Media)
    ensures CreateViewHolder(ViewTypeOf(item)).Created?
    ensures CreateViewHolder(ViewTypeOf(item)).holder == VideoViewHolder <==> item.isVideo
  {
  }

  /** `bind`: the click listener either holder installs reports the bound item itself. */
  function Bind(holder: ViewHolder, item: Media): (click: ItemClick)
    ensures click.isVideo == item.isVideo && click.uri == item.uri
  {
    match holder
    case ImageViewHolder => ItemClick(item.isVideo, item.uri)
    case VideoViewHolder => ItemClick(item.isVideo, item.uri)
  }

  /** `removeAt` on a copy of the list: the element at `p` is dropped and the others keep
      their relative order. */
  function RemoveAt<T>(s: seq<T>, p: nat): (r: seq<T>)
    requires p < |s|
    ensures |r| == |s| - 1
    ensures forall i :: 0 <= i < p ==> r[i] == s[i]
    ensures forall i :: p <= i < |r| ==> r[i] == s[i + 1]
  {
    s[..p] + s[p + 1..]
  }

  /** Removing at `p` takes exactly one copy of `s[p]` out of the list. */
  lemma RemoveAtMultiset<T>(s: seq<T>, p: nat)
    requires p < |s|
    ensures multiset(RemoveAt(s, p)) + multiset{s[p]} == multiset(s)
  {
    assert s == s[..p] + [s[p]] + s[p + 1..];
  }

  /** No two records of a listing share a uri. */
  ghost predicate UniqueUris(s: seq<Media>)
  {
    forall i, j :: 0 <= i < j < |s| ==> s[i].uri != s[j].uri
  }

  /** The uris of a listing. */
  function UrisOf(s: seq<Media>): (uris: set<Uri>)
  {
    set m | m in s :: m.uri
  }

  /** In a listing without duplicate uris, removing a record removes its uri from the
      listing and nothing else, and the listing stays free of duplicates. */
  lemma RemoveAtUris(s: seq<Media>, p: nat)
    requires p < |s| && UniqueUris(s)
    ensures UniqueUris(RemoveAt(s, p))
    ensures UrisOf(RemoveAt(s, p)) == UrisOf(s) - {s[p].uri}
  {
    var r := RemoveAt(s, p);
    forall i, j | 0 <= i < j < |r| ensures r[i].uri != r[j].uri {
      var i' := if i < p then i else i + 1;
      var j' := if j < p then j else j + 1;
      assert r[i] == s[i'] && r[j] == s[j'];
    }
    forall u | u in UrisOf(r) ensures u in UrisOf(s) - {s[p].uri} {
      var m :| m in r && m.uri == u;
      var k :| 0 <= k < |r| && r[k] == m;
      var k' := if k < p then k else k + 1;
      assert s[k'] == m;
    }
    forall u | u in UrisOf(s) - {s[p].uri} ensures u in UrisOf(r) {
      var m :| m in s && m.uri == u;
      var k :| 0 <= k < |s| && s[k] == m;
      assert k != p;
      assert r[if k < p then k else k - 1] == m;
    }
  }

  /** The presenter: holds the current list of records and dispatches intents on it. */
  class MediaAdapter {
    var mediaList: seq<Media>

    /** A new adapter holds the empty list. */
    constructor ()
      ensures mediaList == []
    {
      mediaList := [];
    }

    /** `getItemCount`. */
    method GetItemCount() returns (n: int)
      ensures n == |mediaList|
    {
      n := |mediaList|;
    }

    /** `getItemViewType`: 2 for a video, 1 for an image. */
    method GetItemViewType(position: int) returns (viewType: int)
      requires 0 <= position < |mediaList|
      ensures viewType == ItemTypeVideo <==> mediaList[position].isVideo
      ensures viewType == ItemTypeImage <==> !mediaList[position].isVideo
    {
      viewType := ViewTypeOf(mediaList[position]);
    }

    /** `onBindViewHolder` followed by a click on the bound view: the owner's `onItemClick`
        receives the kind and uri of exactly the record at that position. */
    method ClickAt(holder: ViewHolder, position: int) returns (click: ItemClick)
      requires 0 <= position < |mediaList|
      ensures click == ItemClick(mediaList[position].isVideo, mediaList[position].uri)
    {
      click := Bind(holder, mediaList[position]);
    }

    /** `submitList`: the held list becomes exactly `list`. */
    method SubmitList(list: seq<Media>)
      modifies this
      ensures mediaList == list
    {
      mediaList := list;
    }

    /** `deleteImage`: out of range it does nothing and notifies no one; in range it
        removes that record, then notifies the owner once with whether the list is now
        empty and the removed record's uri. */
    method DeleteImage(currentPage: int) returns (notice: Option<DeleteNotice>)
      modifies this
      ensures !(0 <= currentPage < |old(mediaList)|) ==>
                mediaList == old(mediaList) && notice == None
      ensures 0 <= currentPage < |old(mediaList)| ==>
                && mediaList == RemoveAt(old(mediaList), currentPage)
                && notice == Some(DeleteNotice(mediaList == [], old(mediaList)[currentPage].uri))
    {
      var count := GetItemCount();
      if 0 <= currentPage < count {
        var media := mediaList[currentPage];
        var allMedia := RemoveAt(mediaList, currentPage);
        SubmitList(allMedia);
        notice := Some(DeleteNotice(allMedia == [], media.uri));
      } else {
        notice := None;
      }
    }
  }

  /** Deleting the middle of three records keeps the outer two in order and does not
      report an empty list; deleting the only record reports an empty list. */
  method DeleteScenarios(a: Media, b: Media, c: Media)
    returns (middle: Option<DeleteNotice>, left: seq<Media>, only: Option<DeleteNotice>)
    ensures middle == Some(DeleteNotice(false, b.uri)) && left == [a, c]
    ensures only == Some(DeleteNotice(true, a.uri))
  {
    var adapter := new MediaAdapter();
    adapter.SubmitList([a, b, c]);
    middle := adapter.DeleteImage(1);
    left := adapter.mediaList;
    adapter.SubmitList([a]);
    only := adapter.DeleteImage(0);
  }
}
