/**
 * Payload shaping: the notes `makeNotesData` builds from prepared moments,
 * and the character profile `process` submits (its handle and the metadata
 * fields it adds only when their source field is set).
 */
module Notes {
  import opened Wrappers
  import Strings
  import opened Moments

  const JpegType := "image/jpeg"
  /** The `sources` entry of every note. */
  const ExporterSource := "wechat-moments-exporter"
  /** The prefix of every handle. */
  const HandlePrefix := "wx-"

  /** `{ address, mime_type }`; an address looked up in an empty map is `undefined`. */
  datatype Attachment = Attachment(address: Option<string>, mimeType: string)

  /**
   * A note's `content`: the moment's text, or the HTML share card built from
   * the share fields (the exact markup is not modelled, its inputs are).
   */
  datatype Body =
    | Plain(text: string)
    | SharedLink(text: string, url: string, title: Option<string>, desc: Option<string>, image: Option<string>)

  /**
   * One note of `postMany`: `characterId`, `date_published` (kept as the
   * millisecond timestamp it is formatted from), `sources`, `content` and
   * `attachments` (absent for share cards).
   */
  datatype Note = Note(characterId: int, published: int, sources: seq<string>,
                       body: Body, attachments: Option<seq<Attachment>>)

  /** `moment.type === "share" && moment.share_url` */
  predicate IsLinkPost(m: Moment) reads m {
    m.kind == Share && m.shareUrl.Some? && m.shareUrl.value != ""
  }

  /** `imageUrls.get(key)` */
  function Lookup(urls: map<string, string>, key: string): Option<string> {
    if key in urls then Some(urls[key]) else None
  }

  /** The address an image is published under: itself, or its uploaded address. */
  function Address(image: string, useLocal: bool, urls: map<string, string>): Option<string> {
    if useLocal then Lookup(urls, image) else Some(image)
  }

  /** `display_images.map(image => ({ address, mime_type: "image/jpeg" }))` */
  function Attachments(images: seq<string>, useLocal: bool, urls: map<string, string>): seq<Attachment>
    decreases |images|
  {
    if images == [] then []
    else [Attachment(Address(images[0], useLocal, urls), JpegType)] + Attachments(images[1..], useLocal, urls)
  }

  /** The note `makeNotesData` builds for one moment. */
  function MakeNote(useLocal: bool, urls: map<string, string>, characterId: int, m: Moment): Note
    reads m
  {
    if IsLinkPost(m) then
      var image := if !useLocal then m.shareImage
                   else if m.shareImage.Some? then Lookup(urls, m.shareImage.value) else None;
      Note(characterId, m.publishTime, [ExporterSource],
           SharedLink(m.content, m.shareUrl.value, m.shareTitle, m.shareDesc, image), None)
    else
      Note(characterId, m.publishTime, [ExporterSource], Plain(m.content),
           if m.displayImages.Some? then Some(Attachments(m.displayImages.value, useLocal, urls)) else None)
  }

  /** `makeNotesData`: one note per moment, in the moments' order. */
  function MakeNotes(useLocal: bool, urls: map<string, string>, characterId: int, ms: seq<Moment>): (notes: seq<Note>)
    reads set m | m in ms
    decreases |ms|
    ensures |notes| == |ms|
    ensures forall k :: 0 <= k < |ms| ==> notes[k] == MakeNote(useLocal, urls, characterId, ms[k])
  {
    if ms == [] then []
    else [MakeNote(useLocal, urls, characterId, ms[0])] + MakeNotes(useLocal, urls, characterId, ms[1..])
  }

  /** Attachments keep the images' order: the k-th one is the k-th image's. */
  lemma {:induction false} AttachmentsAt(images: seq<string>, useLocal: bool, urls: map<string, string>)
    ensures |Attachments(images, useLocal, urls)| == |images|
    ensures forall k :: 0 <= k < |images| ==>
              Attachments(images, useLocal, urls)[k] == Attachment(Address(images[k], useLocal, urls), JpegType)
    decreases |images|
  {
    if images != [] {
      AttachmentsAt(images[1..], useLocal, urls);
    }
  }

  /**
   * The two shapes of a note. A share post with a non-empty URL becomes a
   * share card with no attachments. Any other moment keeps its text, and
   * has one attachment per display image, in order: in remote mode each is
   * the image itself, in local mode its uploaded address.
   */
  lemma NoteShape(useLocal: bool, urls: map<string, string>, characterId: int, m: Moment)
    ensures var n := MakeNote(useLocal, urls, characterId, m);
            n.characterId == characterId && n.published == m.publishTime &&
            n.sources == [ExporterSource]
    ensures IsLinkPost(m) ==>
              var n := MakeNote(useLocal, urls, characterId, m);
              n.body.SharedLink? && n.body.text == m.content && Some(n.body.url) == m.shareUrl &&
              n.attachments == None
    ensures !IsLinkPost(m) ==>
              var n := MakeNote(useLocal, urls, characterId, m);
              n.body == Plain(m.content) &&
              (n.attachments.Some? <==> m.displayImages.Some?) &&
              (m.displayImages.Some? ==>
                 |n.attachments.value| == |m.displayImages.value| &&
                 forall k :: 0 <= k < |m.displayImages.value| ==>
                   n.attachments.value[k].mimeType == JpegType &&
                   n.attachments.value[k].address == Address(m.displayImages.value[k], useLocal, urls))
  {
    if m.displayImages.Some? {
      AttachmentsAt(m.displayImages.value, useLocal, urls);
    }
  }

  /**
   * Once every image is a key of `urls` (the upload stage ran), no note has
   * an undefined attachment address or share-card image.
   */
  lemma NotesResolved(urls: map<string, string>, characterId: int, ms: seq<Moment>)
    requires forall m, img :: m in ms && m.displayImages.Some? && img in m.displayImages.value ==> img in urls
    requires forall m :: m in ms && m.kind == Share ==>
               m.displayImages.Some? && m.shareImage == Some(FirstOrEmpty(m.displayImages.value))
    ensures forall k :: 0 <= k < |ms| ==>
              var n := MakeNotes(true, urls, characterId, ms)[k];
              (n.attachments.Some? ==> forall a :: a in n.attachments.value ==> a.address.Some?) &&
              (n.body.SharedLink? && |ms[k].displayImages.value| > 0 ==> n.body.image.Some?)
  {
    forall k | 0 <= k < |ms|
      ensures var n := MakeNotes(true, urls, characterId, ms)[k];
              (n.attachments.Some? ==> forall a :: a in n.attachments.value ==> a.address.Some?) &&
              (n.body.SharedLink? && |ms[k].displayImages.value| > 0 ==> n.body.image.Some?)
    {
      var m := ms[k];
      NoteShape(true, urls, characterId, m);
      if IsLinkPost(m) && |m.displayImages.value| > 0 {
        assert m.displayImages.value[0] in m.displayImages.value;
      }
      if m.displayImages.Some? && !IsLinkPost(m) {
        var imgs := m.displayImages.value;
        var atts := MakeNote(true, urls, characterId, m).attachments.value;
        forall a | a in atts ensures a.address.Some? {
          var j :| 0 <= j < |atts| && atts[j] == a;
          assert imgs[j] in imgs;
        }
      }
    }
  }

  /** Notes come out in the moments' order, so chronological moments give chronological notes. */
  lemma NotesChronological(useLocal: bool, urls: map<string, string>, characterId: int, ms: seq<Moment>)
    requires SortedByTime(ms)
    ensures var notes := MakeNotes(useLocal, urls, characterId, ms);
            forall i, j :: 0 <= i < j < |notes| ==> notes[i].published <= notes[j].published
  {
    var notes := MakeNotes(useLocal, urls, characterId, ms);
    forall i, j | 0 <= i < j < |notes| ensures notes[i].published <= notes[j].published {
      NoteShape(useLocal, urls, characterId, ms[i]);
      NoteShape(useLocal, urls, characterId, ms[j]);
    }
  }

  // ---------------------------------------------------------------------
  // The character profile
  // ---------------------------------------------------------------------

  /** `"wx-" + MD5(account.id).toString().slice(0, 8)`; `md5` stands for the hex digest. */
  function Handle(id: string, md5: string -> string): (h: string)
    ensures |HandlePrefix| <= |h| <= |HandlePrefix| + 8
    ensures h[..|HandlePrefix|] == HandlePrefix
    ensures |md5(id)| >= 8 ==> |h| == |HandlePrefix| + 8 && h[|HandlePrefix|..] == md5(id)[..8]
  {
    HandlePrefix + Strings.Take(md5(id), 8)
  }

  /** `characterProfile`: owner, handle and `metadataOrUri`. */
  datatype Profile = Profile(owner: string, handle: string, name: string,
                             banners: Option<seq<Attachment>>, avatars: Option<seq<string>>,
                             bio: Option<string>)

  /**
   * The profile `process` submits: `name` always, and `banners`, `avatars`
   * and `bio` only when the account's banner, avatar and bio are non-empty.
   */
  function CharacterProfile(owner: string, handle: string, account: Account,
                            avatarUrl: string, bannerUrl: string): (p: Profile)
    ensures p.owner == owner && p.handle == handle && p.name == account.nickname
    ensures p.banners.Some? <==> account.banner != ""
    ensures p.banners.Some? ==> p.banners.value == [Attachment(Some(bannerUrl), JpegType)]
    ensures p.avatars.Some? <==> account.avatar != ""
    ensures p.avatars.Some? ==> p.avatars.value == [avatarUrl]
    ensures p.bio.Some? <==> !IsNull(account.bio)
    ensures p.bio.Some? ==> p.bio == account.bio
  {
    Profile(owner, handle, account.nickname,
            if account.banner != "" then Some([Attachment(Some(bannerUrl), JpegType)]) else None,
            if account.avatar != "" then Some([avatarUrl]) else None,
            if IsNull(account.bio) then None else account.bio)
  }

  /** Builds `characterProfile` as `process` does, adding each optional field in turn. */
  method BuildProfile(owner: string, handle: string, account: Account, avatarUrl: string, bannerUrl: string)
    returns (p: Profile)
    ensures p == CharacterProfile(owner, handle, account, avatarUrl, bannerUrl)
  {
    p := Profile(owner, handle, account.nickname, None, None, None);
    if account.banner != "" {
      p := p.(banners := Some([Attachment(Some(bannerUrl), JpegType)]));
    }
    if account.avatar != "" {
      p := p.(avatars := Some([avatarUrl]));
    }
    if account.bio.Some? && account.bio.value != "" {
      p := p.(bio := account.bio);
    }
  }
}
