/** The media record (adapter/Media.kt) and the identity and content predicates that
    adapter/MediaDiffCallback.kt defines over it. */
module Records {

  /** Kotlin's `Long`: a 64-bit two's-complement integer. */
  newtype Long = x: int | -0x8000_0000_0000_0000 <= x < 0x8000_0000_0000_0000

  /** The content collections a record's uri can be built on:
      MediaStore.Images.Media.EXTERNAL_CONTENT_URI and MediaStore.Video.Media.EXTERNAL_CONTENT_URI. */
  datatype Collection = ImagesExternal | VideoExternal

  /** A content uri, kept opaque: the base collection with a row id appended
      (what ContentUris.withAppendedId builds). */
  datatype Uri = Uri(collection: Collection, id: Long)

  /** One captured asset. All three fields are `val` in the source, so a record is an
      immutable value: nothing in the model updates a record, it only builds new ones. */
  datatype Media = Media(uri: Uri, isVideo: bool, date: Long)

  /** `areItemsTheSame`: two records denote the same asset when their uris agree. */
  function AreItemsTheSame(oldItem: Media, newItem: Media): (same: bool)
    ensures same <==> oldItem.uri.collection == newItem.uri.collection && oldItem.uri.id == newItem.uri.id
  {
    oldItem.uri == newItem.uri
  }

  /** `areContentsTheSame`: the data-class equality of the two records. */
  function AreContentsTheSame(oldItem: Media, newItem: Media): (same: bool)
    ensures same <==> AreItemsTheSame(oldItem, newItem)
                      && oldItem.isVideo == newItem.isVideo
                      && oldItem.date == newItem.date
  {
    oldItem == newItem
  }

  /** Data-class equality is field-wise: a record is exactly its uri, kind and date. */
  lemma MediaEquality(a: Media, b: Media)
    ensures a == b <==> a.uri == b.uri && a.isVideo == b.isVideo && a.date == b.date
  {
  }

  /** Equal contents imply the same item. */
  lemma ContentsImplyItems(a: Media, b: Media)
    ensures AreContentsTheSame(a, b) ==> AreItemsTheSame(a, b)
  {
  }

  /** Both diff predicates are reflexive and symmetric. */
  lemma DiffPredicatesReflexiveSymmetric(a: Media, b: Media)
    ensures AreItemsTheSame(a, a) && AreContentsTheSame(a, a)
    ensures AreItemsTheSame(a, b) <==> AreItemsTheSame(b, a)
    ensures AreContentsTheSame(a, b) <==> AreContentsTheSame(b, a)
  {
  }

  /** A record re-dated under the same uri is the same item with changed contents. */
  lemma RedatedIsSameItemNewContents(a: Media, b: Media)
    requires a.uri == b.uri && a.date != b.date
    ensures AreItemsTheSame(a, b) && !AreContentsTheSame(a, b)
  {
  }
}
