/**
 * Incoming media messages and the album buffer flush of bot.py: a buffered
 * album is sorted by message id and its media appended in that order.
 */
module Album {
  import opened Wrappers
  import opened Drafts

  /** An incoming message as far as the media handlers look at it: its id and the
      file id of its photo (largest size), video or document, where present. */
  datatype MediaMessage = MediaMessage(
    messageId: int,
    photo: Option<string>,
    video: Option<string>,
    document: Option<string>)

  /** The item a message contributes: a photo first, else a video, else a
      document, else nothing. */
  function MediaOf(m: MediaMessage): (r: Option<MediaItem>)
    ensures r.Some? <==> m.photo.Some? || m.video.Some? || m.document.Some?
    ensures m.photo.Some? ==> r == Some(MediaItem(Photo, m.photo.value))
  {
    if m.photo.Some? then Some(MediaItem(Photo, m.photo.value))
    else if m.video.Some? then Some(MediaItem(Video, m.video.value))
    else if m.document.Some? then Some(MediaItem(Document, m.document.value))
    else None
  }

  function ItemsOf(m: MediaMessage): seq<MediaItem> {
    if MediaOf(m).Some? then [MediaOf(m).value] else []
  }

  /** The items a list of messages contributes, in list order. */
  function Items(ms: seq<MediaMessage>): (r: seq<MediaItem>)
    ensures |r| <= |ms|
  {
    if ms == [] then [] else Items(ms[..|ms| - 1]) + ItemsOf(ms[|ms| - 1])
  }

  predicate SortedById(ms: seq<MediaMessage>) {
    forall i, j :: 0 <= i < j < |ms| ==> ms[i].messageId <= ms[j].messageId
  }

  /** Insert before the first message whose id is not smaller, so that messages
      with equal ids keep their arrival order. */
  function Insert(m: MediaMessage, ms: seq<MediaMessage>): (r: seq<MediaMessage>)
    requires SortedById(ms)
    ensures SortedById(r)
    ensures multiset(r) == multiset(ms) + multiset{m}
    ensures |r| == |ms| + 1
    ensures r[0] == m || (ms != [] && r[0] == ms[0])
  {
    if ms == [] || m.messageId <= ms[0].messageId then [m] + ms
    else
      assert ms == [ms[0]] + ms[1..];
      [ms[0]] + Insert(m, ms[1..])
  }

  /** `msgs.sort(key=lambda x: x.message_id)`: a stable sort by message id. */
  function SortByMessageId(ms: seq<MediaMessage>): (r: seq<MediaMessage>)
    ensures SortedById(r)
    ensures multiset(r) == multiset(ms)
    ensures |r| == |ms|
  {
    if ms == [] then []
    else
      assert ms == [ms[0]] + ms[1..];
      Insert(ms[0], SortByMessageId(ms[1..]))
  }

  /** An album that arrived as ids 5, 3, 4 is attached as 3, 4, 5. */
  lemma SortExample(a: MediaMessage, b: MediaMessage, c: MediaMessage)
    requires a.messageId == 5 && b.messageId == 3 && c.messageId == 4
    ensures SortByMessageId([a, b, c]) == [b, c, a]
  {
    assert [a, b, c][1..] == [b, c];
    assert [b, c][1..] == [c];
    assert SortByMessageId([c]) == [c];
    assert SortByMessageId([b, c]) == [b, c];
  }

  /** The loop `for mm in msgs: d.media.append(...)` of the album flush, with its
      `added` counter. */
  method AppendAll(media: seq<MediaItem>, ms: seq<MediaMessage>) returns (r: seq<MediaItem>, added: nat)
    ensures r == media + Items(ms)
    ensures added == |r| - |media|
  {
    r, added := media, 0;
    var i := 0;
    while i < |ms|
      invariant 0 <= i <= |ms|
      invariant r == media + Items(ms[..i])
      invariant added == |r| - |media|
    {
      var m := ms[i];
      if m.photo.Some? {
        r := r + [MediaItem(Photo, m.photo.value)];
        added := added + 1;
      } else if m.video.Some? {
        r := r + [MediaItem(Video, m.video.value)];
        added := added + 1;
      } else if m.document.Some? {
        r := r + [MediaItem(Document, m.document.value)];
        added := added + 1;
      }
      assert ms[..i + 1][..i] == ms[..i];
      i := i + 1;
    }
    assert ms[..i] == ms;
  }

  /** The body of `handle_single_media` on the media list: the message's photo,
      video or document appended, then the list cut back to ten. */
  method AttachMedia(media: seq<MediaItem>, m: MediaMessage) returns (r: seq<MediaItem>)
    ensures r == Clamp(media + ItemsOf(m))
  {
    r := media;
    if m.photo.Some? {
      r := r + [MediaItem(Photo, m.photo.value)];
    } else if m.video.Some? {
      r := r + [MediaItem(Video, m.video.value)];
    } else if m.document.Some? {
      r := r + [MediaItem(Document, m.document.value)];
    }
    r := if |r| <= MaxMedia then r else r[..MaxMedia];
  }

  /** The whole flush on the draft: sort, append, cut back to ten. */
  function AddAlbum(d: Draft, ms: seq<MediaMessage>): Draft {
    AddMedia(d, Items(SortByMessageId(ms)))
  }

  /** A flush never leaves more than ten items, keeps every item the draft already
      had, appends the album's items in ascending message-id order, exactly as
      many as still fit, and changes nothing but the media. */
  lemma AlbumFlushBounded(d: Draft, ms: seq<MediaMessage>)
    requires |d.media| <= MaxMedia
    ensures var r := AddAlbum(d, ms); var items := Items(SortByMessageId(ms));
      var fit := if |items| <= MaxMedia - |d.media| then |items| else MaxMedia - |d.media|;
      && |r.media| <= MaxMedia
      && r.media[..|d.media|] == d.media
      && r.media == d.media + items[..fit]
      && r == d.(media := r.media)
  {
    var items := Items(SortByMessageId(ms));
    ClampKeepsExisting(d.media, items);
  }

  /** The same bound for a single media message. */
  lemma SingleMediaBounded(d: Draft, m: MediaMessage)
    requires |d.media| <= MaxMedia
    ensures var r := AddMedia(d, ItemsOf(m));
      && |r.media| <= MaxMedia
      && r.media[..|d.media|] == d.media
      && (|d.media| < MaxMedia && MediaOf(m).Some? ==> r.media == d.media + [MediaOf(m).value])
      && (|d.media| == MaxMedia || MediaOf(m).None? ==> r.media == d.media)
  {
    ClampKeepsExisting(d.media, ItemsOf(m));
  }
}
