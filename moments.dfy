/**
 * Data preparation: the exported moments and account, the selection and
 * ordering of moments (`getMoments`), the per-moment normalisation
 * (`prepareMoment`) and the account's display fields (`prepareMoments`).
 *
 * A moment and the account are objects the page updates in place, so they
 * are classes. The fields the page never writes are `const`; the ones it
 * writes (`type`, `display_images`, `share_image`, `displayAvatar`,
 * `displayBanner`) are `var`.
 */
module Moments {
  import opened Wrappers
  import Strings

  /** The `type` of a moment: `"share"` or `"text"`. */
  datatype Kind = Share | Text

  /** Order requested from `getMoments`. */
  datatype Order = Asc | Desc

  class Moment {
    const id: string
    const content: string
    const images: seq<string>
    /** `undefined` and `null` are both `None`. */
    const shareTitle: Option<string>
    const shareDesc: Option<string>
    const shareUrl: Option<string>
    /** The numeric value of `+publish_time`, in milliseconds. */
    const publishTime: int
    var kind: Kind
    var displayImages: Option<seq<string>>
    var shareImage: Option<string>

    constructor (id: string, content: string, kind: Kind, images: seq<string>,
                 shareTitle: Option<string>, shareDesc: Option<string>, shareUrl: Option<string>,
                 shareImage: Option<string>, publishTime: int)
      ensures this.id == id && this.content == content && this.kind == kind
      ensures this.images == images && this.publishTime == publishTime
      ensures this.shareTitle == shareTitle && this.shareDesc == shareDesc && this.shareUrl == shareUrl
      ensures this.shareImage == shareImage && displayImages == None
    {
      this.id, this.content, this.kind, this.images := id, content, kind, images;
      this.shareTitle, this.shareDesc, this.shareUrl := shareTitle, shareDesc, shareUrl;
      this.shareImage, this.publishTime := shareImage, publishTime;
      displayImages := None;
    }
  }

  class Account {
    const id: string
    const nickname: string
    /** A missing avatar or banner is the empty string. */
    const avatar: string
    const banner: string
    const bio: Option<string>
    var displayAvatar: Option<string>
    var displayBanner: Option<string>

    constructor (id: string, nickname: string, avatar: string, banner: string, bio: Option<string>)
      ensures this.id == id && this.nickname == nickname && this.bio == bio
      ensures this.avatar == avatar && this.banner == banner
      ensures displayAvatar == None && displayBanner == None
    {
      this.id, this.nickname, this.avatar, this.banner, this.bio := id, nickname, avatar, banner, bio;
      displayAvatar, displayBanner := None, None;
    }
  }

  // ---------------------------------------------------------------------
  // Selection and ordering (getMoments)
  // ---------------------------------------------------------------------

  /** `moments.filter(m => !blackLists.includes(m.id))` */
  function Unblocked(ms: seq<Moment>, blacklist: set<string>): (r: seq<Moment>)
    decreases |ms|
    ensures |r| <= |ms|
    ensures forall i :: 0 <= i < |r| ==> r[i] in ms && r[i].id !in blacklist
    ensures forall i :: 0 <= i < |ms| && ms[i].id !in blacklist ==> ms[i] in r
  {
    if ms == [] then []
    else
      var last := ms[|ms| - 1];
      Unblocked(ms[..|ms| - 1], blacklist) + (if last.id in blacklist then [] else [last])
  }

  /** Every moment that is not blacklisted is kept exactly as often as the archive holds it. */
  lemma {:induction false} UnblockedMultiset(ms: seq<Moment>, blacklist: set<string>)
    ensures forall m: Moment :: multiset(Unblocked(ms, blacklist))[m] == if m.id in blacklist then 0 else multiset(ms)[m]
    decreases |ms|
  {
    if ms != [] {
      var init, last := ms[..|ms| - 1], ms[|ms| - 1];
      UnblockedMultiset(init, blacklist);
      assert ms == init + [last];
    }
  }

  /** Filtering distributes over concatenation, so the kept moments stay in archive order. */
  lemma {:induction false} UnblockedAppend(a: seq<Moment>, b: seq<Moment>, blacklist: set<string>)
    ensures Unblocked(a + b, blacklist) == Unblocked(a, blacklist) + Unblocked(b, blacklist)
    decreases |b|
  {
    if b == [] {
      assert a + b == a;
    } else {
      var init, last := b[..|b| - 1], b[|b| - 1];
      UnblockedAppend(a, init, blacklist);
      assert (a + b)[..|a + b| - 1] == a + init;
      assert (a + b)[|a + b| - 1] == last;
    }
  }

  /** Membership in the filtered list, stated over moments rather than indices. */
  lemma UnblockedMembers(ms: seq<Moment>, blacklist: set<string>)
    ensures forall m :: m in Unblocked(ms, blacklist) <==> m in ms && m.id !in blacklist
  {
    var r := Unblocked(ms, blacklist);
    forall m | m in r ensures m in ms && m.id !in blacklist {
      var i :| 0 <= i < |r| && r[i] == m;
    }
    forall m | m in ms && m.id !in blacklist ensures m in r {
      var i :| 0 <= i < |ms| && ms[i] == m;
    }
  }

  /** Removing the blacklisted moments a second time changes nothing. */
  lemma {:induction false} UnblockedIdempotent(ms: seq<Moment>, blacklist: set<string>)
    ensures Unblocked(Unblocked(ms, blacklist), blacklist) == Unblocked(ms, blacklist)
    decreases |ms|
  {
    if ms != [] {
      var init, last := ms[..|ms| - 1], ms[|ms| - 1];
      UnblockedIdempotent(init, blacklist);
      var once := Unblocked(init, blacklist);
      if last.id !in blacklist {
        var twice := once + [last];
        assert Unblocked(ms, blacklist) == twice;
        assert twice[..|twice| - 1] == once && twice[|twice| - 1] == last;
        assert Unblocked(twice, blacklist) == Unblocked(once, blacklist) + [last];
      } else {
        assert Unblocked(ms, blacklist) == once;
      }
    }
  }

  predicate SortedByTime(ms: seq<Moment>) {
    forall i, j :: 0 <= i < j < |ms| ==> ms[i].publishTime <= ms[j].publishTime
  }

  /** A moment no later than the head of a sorted list can be put in front of it. */
  lemma SortedCons(m: Moment, sorted: seq<Moment>)
    requires SortedByTime(sorted)
    requires |sorted| > 0 ==> m.publishTime <= sorted[0].publishTime
    ensures SortedByTime([m] + sorted)
  {
    var r := [m] + sorted;
    forall i, j | 0 <= i < j < |r| ensures r[i].publishTime <= r[j].publishTime {
      if i == 0 {
        assert r[j] == sorted[j - 1];
        assert sorted[0].publishTime <= sorted[j - 1].publishTime;
      } else {
        assert r[i] == sorted[i - 1] && r[j] == sorted[j - 1];
      }
    }
  }

  /** Puts `m` after every moment that is not later than it (so ties keep their order). */
  function InsertByTime(m: Moment, sorted: seq<Moment>): (r: seq<Moment>)
    requires SortedByTime(sorted)
    ensures SortedByTime(r)
    ensures multiset(r) == multiset(sorted) + multiset{m}
    ensures r[0] == m || (|sorted| > 0 && r[0] == sorted[0])
  {
    if sorted == [] then [m]
    else if m.publishTime < sorted[0].publishTime then
      SortedCons(m, sorted);
      [m] + sorted
    else
      var head, rest := sorted[0], InsertByTime(m, sorted[1..]);
      assert sorted == [head] + sorted[1..];
      SortedCons(head, rest);
      [head] + rest
  }

  /** `.sort((a, b) => +a.publish_time - +b.publish_time)`: a stable ascending sort. */
  function SortByTime(ms: seq<Moment>): (r: seq<Moment>)
    decreases |ms|
    ensures SortedByTime(r)
    ensures multiset(r) == multiset(ms)
  {
    if ms == [] then []
    else
      assert ms == ms[..|ms| - 1] + [ms[|ms| - 1]];
      InsertByTime(ms[|ms| - 1], SortByTime(ms[..|ms| - 1]))
  }

  /** Elements of `s` in the opposite order (`Array.prototype.reverse`). */
  function Reversed<T>(s: seq<T>): (r: seq<T>)
    decreases |s|
    ensures |r| == |s|
    ensures forall i :: 0 <= i < |s| ==> r[i] == s[|s| - 1 - i]
  {
    if s == [] then [] else [s[|s| - 1]] + Reversed(s[..|s| - 1])
  }

  /** Reversing twice gives the sequence back. */
  lemma ReversedTwice<T>(s: seq<T>)
    ensures Reversed(Reversed(s)) == s
  {
    var r := Reversed(Reversed(s));
    assert forall i :: 0 <= i < |s| ==> r[i] == s[i];
  }

  /** The unblocked moments, oldest first: the order in which the pipeline publishes. */
  function Chronological(all: seq<Moment>, blacklist: set<string>): seq<Moment> {
    SortByTime(Unblocked(all, blacklist))
  }

  /** The moment list `getMoments(order)` returns. */
  function Selection(all: seq<Moment>, blacklist: set<string>, order: Order): seq<Moment> {
    if order == Asc then Chronological(all, blacklist) else Reversed(Chronological(all, blacklist))
  }

  /** Reversal keeps the same elements, each as often. */
  lemma {:induction false} ReversedMultiset<T>(s: seq<T>)
    ensures multiset(Reversed(s)) == multiset(s)
    decreases |s|
  {
    if s != [] {
      ReversedMultiset(s[..|s| - 1]);
      assert s == s[..|s| - 1] + [s[|s| - 1]];
    }
  }

  /** The chronological list holds exactly the unblocked moments, ascending by time. */
  lemma ChronologicalProperties(all: seq<Moment>, blacklist: set<string>)
    ensures SortedByTime(Chronological(all, blacklist))
    ensures multiset(Chronological(all, blacklist)) == multiset(Unblocked(all, blacklist))
    ensures forall m :: m in Chronological(all, blacklist) <==> m in all && m.id !in blacklist
  {
    var u := Unblocked(all, blacklist);
    var c := Chronological(all, blacklist);
    UnblockedMembers(all, blacklist);
    assert forall m :: m in c <==> m in multiset(c);
    assert forall m :: m in u <==> m in multiset(u);
  }

  /**
   * What `getMoments` promises: no blacklisted moment and every other moment
   * exactly as often as in the export; ascending by publish time for `Asc`;
   * for `Desc` descending, and exactly the reverse of the ascending list.
   */
  lemma SelectionProperties(all: seq<Moment>, blacklist: set<string>, order: Order)
    ensures forall m :: m in Selection(all, blacklist, order) <==> m in all && m.id !in blacklist
    ensures multiset(Selection(all, blacklist, order)) == multiset(Unblocked(all, blacklist))
    ensures forall m: Moment :: multiset(Selection(all, blacklist, order))[m] ==
              if m.id in blacklist then 0 else multiset(all)[m]
    ensures order == Asc ==> SortedByTime(Selection(all, blacklist, order))
    ensures order == Desc ==> Reversed(Selection(all, blacklist, order)) == Selection(all, blacklist, Asc)
    ensures order == Desc ==>
              var s := Selection(all, blacklist, order);
              forall i, j :: 0 <= i < j < |s| ==> s[i].publishTime >= s[j].publishTime
  {
    ChronologicalProperties(all, blacklist);
    UnblockedMultiset(all, blacklist);
    if order == Desc {
      var c := Chronological(all, blacklist);
      ReversedTwice(c);
      ReversedMultiset(c);
      ReversedMembers(c);
      ReversedDescending(c);
    }
  }

  /** Whatever the order, the selection holds exactly the moments whose id is not blacklisted. */
  lemma SelectionMembers(all: seq<Moment>, blacklist: set<string>, order: Order)
    ensures forall m :: m in Selection(all, blacklist, order) <==> m in all && m.id !in blacklist
  {
    ChronologicalProperties(all, blacklist);
    ReversedMembers(Chronological(all, blacklist));
  }

  lemma ReversedMembers<T>(s: seq<T>)
    ensures forall x :: x in Reversed(s) <==> x in s
  {
    var r := Reversed(s);
    forall x | x in r ensures x in s {
      var i :| 0 <= i < |r| && r[i] == x;
      assert s[|s| - 1 - i] == x;
    }
    forall x | x in s ensures x in r {
      var i :| 0 <= i < |s| && s[i] == x;
      assert r[|s| - 1 - i] == x;
    }
  }

  lemma ReversedDescending(c: seq<Moment>)
    requires SortedByTime(c)
    ensures var s := Reversed(c);
            forall i, j :: 0 <= i < j < |s| ==> s[i].publishTime >= s[j].publishTime
  {
    var s := Reversed(c);
    forall i, j | 0 <= i < j < |s| ensures s[i].publishTime >= s[j].publishTime {
      assert s[i] == c[|c| - 1 - i] && s[j] == c[|c| - 1 - j];
    }
  }

  /** `.reverse()`: reverses an array in place. */
  method ReverseInPlace<T>(a: array<T>)
    modifies a
    ensures a[..] == Reversed(old(a[..]))
  {
    var lo, hi := 0, a.Length - 1;
    while lo < hi
      invariant 0 <= lo <= a.Length && hi == a.Length - 1 - lo
      invariant forall k :: 0 <= k < lo ==> a[k] == old(a[a.Length - 1 - k]) && a[a.Length - 1 - k] == old(a[k])
      invariant forall k :: lo <= k < a.Length - lo ==> a[k] == old(a[k])
    {
      a[lo], a[hi] := a[hi], a[lo];
      lo, hi := lo + 1, hi - 1;
    }
  }

  /** A fresh array holding `s` (the array `filter` and `sort` leave behind). */
  method ToArray(s: seq<Moment>) returns (a: array<Moment>)
    ensures fresh(a) && a[..] == s
  {
    a := new Moment[|s|](i requires 0 <= i < |s| => s[i]);
    assert forall k :: 0 <= k < |s| ==> a[..][k] == s[k];
  }

  /** `getMoments(order)`: filter, sort, and for `Desc` reverse the sorted array in place. */
  method GetMoments(all: seq<Moment>, blacklist: set<string>, order: Order) returns (ms: seq<Moment>)
    ensures ms == Selection(all, blacklist, order)
  {
    var chrono := Chronological(all, blacklist);
    if order == Asc {
      return chrono;
    }
    var a := ToArray(chrono);
    ReverseInPlace(a);
    ms := a[..];
  }

  // ---------------------------------------------------------------------
  // Image normalisation (the walk at the start of prepareMoment)
  // ---------------------------------------------------------------------

  /** The thumbnail marker and its full-size replacement. */
  const Thumbnail := "/150"
  const FullSize := "/0"

  /** `img.replace("/150", "/0")`: the full-size sibling a thumbnail is checked against. */
  function Sibling(img: string): string {
    Strings.ReplaceFirst(img, Thumbnail, FullSize)
  }

  /** An image survives the walk unless it is a thumbnail whose sibling is in `all`. */
  predicate Kept(img: string, all: seq<string>) {
    !(Strings.EndsWith(img, Thumbnail) && Sibling(img) in all)
  }

  /** The images of `imgs` that survive, in their order. */
  function KeptImages(imgs: seq<string>, all: seq<string>): seq<string>
    decreases |imgs|
  {
    if imgs == [] then []
    else
      var last := imgs[|imgs| - 1];
      KeptImages(imgs[..|imgs| - 1], all) + (if Kept(last, all) then [last] else [])
  }

  /** The local handle `/images/<base64(img)>.jpg`. */
  function LocalPath(base64: string -> string, img: string): string {
    "/images/" + base64(img) + ".jpg"
  }

  /** The address a kept image is shown under: itself, or its local handle. */
  function ImageUrl(img: string, useLocal: bool, base64: string -> string): string {
    if useLocal then LocalPath(base64, img) else img
  }

  function Urls(imgs: seq<string>, useLocal: bool, base64: string -> string): seq<string>
    decreases |imgs|
  {
    if imgs == [] then []
    else Urls(imgs[..|imgs| - 1], useLocal, base64) + [ImageUrl(imgs[|imgs| - 1], useLocal, base64)]
  }

  /** Mapping keeps the length, and the k-th address is that of the k-th image. */
  lemma {:induction false} UrlsAt(imgs: seq<string>, useLocal: bool, base64: string -> string)
    ensures |Urls(imgs, useLocal, base64)| == |imgs|
    ensures forall k :: 0 <= k < |imgs| ==> Urls(imgs, useLocal, base64)[k] == ImageUrl(imgs[k], useLocal, base64)
    decreases |imgs|
  {
    if imgs != [] {
      UrlsAt(imgs[..|imgs| - 1], useLocal, base64);
    }
  }

  /** The `display_images` that `prepareMoment` computes for a moment's `images`. */
  function Display(images: seq<string>, useLocal: bool, base64: string -> string): seq<string> {
    Urls(KeptImages(images, images), useLocal, base64)
  }

  /** An image survives exactly when it is in the list and is not a thumbnail with its sibling present. */
  lemma {:induction false} KeptMembership(imgs: seq<string>, all: seq<string>)
    ensures |KeptImages(imgs, all)| <= |imgs|
    ensures forall x :: x in KeptImages(imgs, all) <==> x in imgs && Kept(x, all)
    decreases |imgs|
  {
    if imgs != [] {
      KeptMembership(imgs[..|imgs| - 1], all);
      assert imgs == imgs[..|imgs| - 1] + [imgs[|imgs| - 1]];
    }
  }

  /** Keeping distributes over concatenation: survivors keep their relative order. */
  lemma {:induction false} KeptAppend(a: seq<string>, b: seq<string>, all: seq<string>)
    ensures KeptImages(a + b, all) == KeptImages(a, all) + KeptImages(b, all)
    decreases |b|
  {
    if b == [] {
      assert a + b == a;
    } else {
      var b', x := b[..|b| - 1], b[|b| - 1];
      assert (a + b)[..|a + b| - 1] == a + b';
      KeptAppend(a, b', all);
    }
  }

  /**
   * The thumbnail rule of `prepareMoment`: an image of the moment is dropped
   * from `display_images` exactly when it ends in "/150" and the list holds
   * its first-occurrence "/0" replacement; the rest are kept, so the result is
   * never longer than the input.
   */
  lemma DisplayThumbnailRule(images: seq<string>, useLocal: bool, base64: string -> string)
    ensures |Display(images, useLocal, base64)| <= |images|
    ensures forall img :: img in images ==>
              (img in KeptImages(images, images) <==>
                 !(Strings.EndsWith(img, Thumbnail) && Sibling(img) in images))
  {
    KeptMembership(images, images);
    UrlsAt(KeptImages(images, images), useLocal, base64);
  }

  /**
   * `replace` rewrites the FIRST "/150", not the suffix: a thumbnail whose
   * path holds "/150" twice is paired with a sibling that is not its
   * suffix-rewritten full size, so it is kept next to that full size.
   */
  lemma SiblingFirstOccurrence()
    ensures Sibling("a/150/150") == "a/0/150"
    ensures Kept("a/150/150", ["a/150/150", "a/150/0"])
  {
    var s := "a/150/150";
    assert !Strings.OccursAt(s, Thumbnail, 0) by { assert s[0] != '/'; }
    assert Strings.OccursAt(s, Thumbnail, 1) by { assert s[1..5] == Thumbnail; }
    assert Strings.IndexOf(s, Thumbnail, 0) == 1;
    assert s[..1] + FullSize + s[5..] == "a/0/150";
  }

  /** In remote mode every displayed image is one of the moment's own images. */
  lemma DisplayRemote(images: seq<string>, base64: string -> string)
    ensures forall x :: x in Display(images, false, base64) ==> x in images && Kept(x, images)
  {
    KeptMembership(images, images);
    var kept := KeptImages(images, images);
    UrlsAt(kept, false, base64);
    forall x | x in Display(images, false, base64) ensures x in kept {
      var k :| 0 <= k < |kept| && Display(images, false, base64)[k] == x;
    }
  }

  /** In local mode the k-th displayed entry is the local handle of the k-th kept image. */
  lemma DisplayLocal(images: seq<string>, base64: string -> string)
    ensures |Display(images, true, base64)| == |KeptImages(images, images)|
    ensures forall k :: 0 <= k < |Display(images, true, base64)| ==>
              var img := KeptImages(images, images)[k];
              img in images && Kept(img, images) &&
              Display(images, true, base64)[k] == "/images/" + base64(img) + ".jpg"
  {
    KeptMembership(images, images);
    UrlsAt(KeptImages(images, images), true, base64);
  }

  ghost predicate Injective(f: string -> string) {
    forall a, b :: f(a) == f(b) ==> a == b
  }

  /** With an injective encoding, distinct images get distinct local handles. */
  lemma LocalPathInjective(base64: string -> string, a: string, b: string)
    requires Injective(base64)
    requires LocalPath(base64, a) == LocalPath(base64, b)
    ensures a == b
  {
    var pa, pb := LocalPath(base64, a), LocalPath(base64, b);
    assert base64(a) == pa[8..|pa| - 4];
    assert base64(b) == pb[8..|pb| - 4];
  }

  /**
   * `prepareMoment`'s walk over `images`: skip a thumbnail whose full-size
   * sibling is present, map every other image to its display address.
   */
  method WalkImages(images: seq<string>, useLocal: bool, base64: string -> string)
    returns (display: seq<string>)
    ensures display == Display(images, useLocal, base64)
  {
    display := [];
    for i := 0 to |images|
      invariant display == Urls(KeptImages(images[..i], images), useLocal, base64)
    {
      var img := images[i];
      ghost var kept := KeptImages(images[..i], images);
      assert images[..i + 1][..i] == images[..i] && images[..i + 1][i] == img;
      if Strings.EndsWith(img, Thumbnail) {
        if Sibling(img) in images {
          assert KeptImages(images[..i + 1], images) == kept + [] == kept;
          continue;
        }
      }
      var url := if useLocal then "/images/" + base64(img) + ".jpg" else img;
      assert (kept + [img])[..|kept|] == kept;
      display := display + [url];
    }
    assert images[..|images|] == images;
  }

  // ---------------------------------------------------------------------
  // Kind correction and share image (the rest of prepareMoment)
  // ---------------------------------------------------------------------

  /** `isNull`: undefined, null or the empty string. */
  predicate IsNull(s: Option<string>) {
    s.None? || s.value == ""
  }

  /** All three share fields are empty, so the moment is forced to be a text post. */
  predicate NoShareFields(m: Moment) {
    IsNull(m.shareDesc) && IsNull(m.shareTitle) && IsNull(m.shareUrl)
  }

  /** `display_images[0] || ""` */
  function FirstOrEmpty(s: seq<string>): string {
    if |s| > 0 then s[0] else ""
  }

  /** The `type` a moment has after `prepareMoment`, given its `type` before. */
  function KindAfter(m: Moment, kind0: Kind): Kind {
    if NoShareFields(m) then Text else kind0
  }

  /** The `share_image` a moment has after `prepareMoment`, given its `type` and `share_image` before. */
  function ShareImageAfter(m: Moment, kind0: Kind, shareImage0: Option<string>,
                           useLocal: bool, base64: string -> string): Option<string> {
    if KindAfter(m, kind0) == Share then Some(FirstOrEmpty(Display(m.images, useLocal, base64)))
    else shareImage0
  }

  /** The state `prepareMoment` leaves a moment in, given its `type` and `share_image` before. */
  ghost predicate Prepared(m: Moment, kind0: Kind, shareImage0: Option<string>,
                           useLocal: bool, base64: string -> string)
    reads m
  {
    m.displayImages == Some(Display(m.images, useLocal, base64)) &&
    m.kind == KindAfter(m, kind0) &&
    m.shareImage == ShareImageAfter(m, kind0, shareImage0, useLocal, base64)
  }

  /** Preparing a prepared moment again leaves it as it was: `prepareMoment` is idempotent. */
  lemma PrepareIdempotent(m: Moment, kind0: Kind, shareImage0: Option<string>,
                          useLocal: bool, base64: string -> string)
    ensures var kind1 := KindAfter(m, kind0);
            var shareImage1 := ShareImageAfter(m, kind0, shareImage0, useLocal, base64);
            KindAfter(m, kind1) == kind1 &&
            ShareImageAfter(m, kind1, shareImage1, useLocal, base64) == shareImage1
  {
  }

  /** `prepareMoment(moment, useLocal)`: normalises one moment in place. */
  method PrepareMoment(moment: Moment, useLocal: bool, base64: string -> string)
    modifies moment
    ensures moment.displayImages == Some(Display(moment.images, useLocal, base64))
    ensures NoShareFields(moment) ==> moment.kind == Text
    ensures !NoShareFields(moment) ==> moment.kind == old(moment.kind)
    ensures moment.kind == Share ==>
              moment.shareImage == Some(FirstOrEmpty(Display(moment.images, useLocal, base64)))
    ensures moment.kind == Text ==> moment.shareImage == old(moment.shareImage)
  {
    var display := WalkImages(moment.images, useLocal, base64);
    moment.displayImages := Some(display);
    if IsNull(moment.shareDesc) && IsNull(moment.shareTitle) && IsNull(moment.shareUrl) {
      moment.kind := Text;
    }
    if moment.kind == Share {
      moment.shareImage := Some(if |display| > 0 && display[0] != "" then display[0] else "");
    }
  }

  /** `displayAvatar` / `displayBanner` for one image reference. */
  function DisplayRef(ref: string, useLocal: bool, base64: string -> string): string {
    if !useLocal then ref else if ref != "" then LocalPath(base64, ref) else ""
  }

  /** The account half of `prepareMoments`: sets `displayAvatar` and `displayBanner`. */
  method PrepareAccount(account: Account, useLocal: bool, base64: string -> string)
    modifies account
    ensures account.displayAvatar == Some(DisplayRef(account.avatar, useLocal, base64))
    ensures account.displayBanner == Some(DisplayRef(account.banner, useLocal, base64))
  {
    if useLocal {
      account.displayAvatar := Some(if account.avatar != "" then "/images/" + base64(account.avatar) + ".jpg" else "");
      account.displayBanner := Some(if account.banner != "" then "/images/" + base64(account.banner) + ".jpg" else "");
    } else {
      account.displayAvatar := Some(account.avatar);
      account.displayBanner := Some(account.banner);
    }
  }

  /** The loop of `prepareMoments`: `prepareMoment` on each moment in turn. */
  method PrepareEach(ms: seq<Moment>, useLocal: bool, base64: string -> string)
    modifies set m | m in ms
    ensures forall m :: m in ms ==> Prepared(m, old(m.kind), old(m.shareImage), useLocal, base64)
  {
    ghost var done: set<Moment> := {};
    for i := 0 to |ms|
      invariant forall j :: 0 <= j < i ==> ms[j] in done
      invariant forall m :: m in done ==> m in ms
      invariant forall m :: m in done ==> Prepared(m, old(m.kind), old(m.shareImage), useLocal, base64)
      invariant forall m :: m in ms && m !in done ==> m.kind == old(m.kind) && m.shareImage == old(m.shareImage)
    {
      var m := ms[i];
      PrepareIdempotent(m, old(m.kind), old(m.shareImage), useLocal, base64);
      PrepareMoment(m, useLocal, base64);
      done := done + {m};
    }
  }

  /**
   * `prepareMoments(useLocal, order)`: selects the moments as `getMoments`
   * does, prepares each, then sets the account's display fields. The
   * account is dereferenced before the `account ? … : …` fallback, so a
   * missing account throws; `ok` is false exactly then.
   */
  method PrepareMoments(all: seq<Moment>, blacklist: set<string>, order: Order, account: Account?,
                        useLocal: bool, base64: string -> string)
    returns (ms: seq<Moment>, ok: bool)
    modifies (set m | m in all && m.id !in blacklist), account
    ensures ms == Selection(all, blacklist, order)
    ensures forall m :: m in all && m.id !in blacklist ==>
              Prepared(m, old(m.kind), old(m.shareImage), useLocal, base64)
    ensures ok <==> account != null
    ensures ok ==> account.displayAvatar == Some(DisplayRef(account.avatar, useLocal, base64))
    ensures ok ==> account.displayBanner == Some(DisplayRef(account.banner, useLocal, base64))
  {
    ms := GetMoments(all, blacklist, order);
    SelectionMembers(all, blacklist, order);
    PrepareEach(ms, useLocal, base64);
    ok := account != null;
    if ok {
      label before:
      PrepareAccount(account, useLocal, base64);
      assert forall m :: m in ms ==>
               m.kind == old@before(m.kind) && m.shareImage == old@before(m.shareImage) &&
               m.displayImages == old@before(m.displayImages);
    }
  }
}
