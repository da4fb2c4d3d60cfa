/**
 * The upload run, `process`: connect the wallet, prepare the moments, gate
 * on the balance, create the character, upload the images and post the
 * notes in batches.
 *
 * Every awaited external call is an entry of a call trace. What the wallet,
 * the ledger and IPFS answer comes from a `World`; an await whose promise
 * rejects ends the run (the exception is not caught), so a run's trace is
 * always a prefix of the trace of a run in which nothing fails.
 */
module Pipeline {
  import opened Wrappers
  import opened Moments
  import opened Notes
  import opened Batching

  /** The awaited external calls of a run. */
  datatype Call =
    | RequestAccounts                 // `eth_requestAccounts`
    | AddChain                        // `wallet_addEthereumChain`
    | SwitchChain                     // `wallet_switchEthereumChain`
    | GetBalance(owner: string)       // `csb.getBalance`
    | Upload(path: string)            // one `makeIpfsUrl` (the avatar, the banner)
    | CreateCharacter(profile: Profile)
    | UploadAll(paths: seq<string>)   // the `Promise.all` over the moments' images
    | PostMany(notes: seq<Note>)

  /**
   * The answers of the outside world: whether `window.ethereum` exists, the
   * connected address, its balance in wei, the id `character.create`
   * returns, the IPFS cid of each uploaded path, and which calls reject.
   */
  datatype World = World(hasWallet: bool, address: string, balanceWei: nat, characterId: int,
                         cid: string -> string, rejects: Call -> bool)

  /** A call's promise rejects; the fan-out rejects when one of its uploads does. */
  predicate Refused(w: World, c: Call) {
    match c
    case UploadAll(paths) => exists i :: 0 <= i < |paths| && w.rejects(Upload(paths[i]))
    case _ => w.rejects(c)
  }

  /** The lines `process` appends to `info` (their wording is not modelled). */
  datatype Line =
    | InstallWallet
    | WalletReady(address: string)
    | BalanceLow(balanceWei: nat, feeWei: nat)
    | ProfileReady(profile: Profile)
    | CharacterCreated(id: int)
    | UploadingImages(count: nat)
    | ImagesUploaded
    | Posting(total: nat, batchCount: nat, batchSize: nat)
    | Posted(count: nat)
    | Finished(handle: string)

  /**
   * How a run ends: the missing-wallet return, the TypeError of a missing
   * account, the low-balance return, a rejected await, or success.
   */
  datatype Outcome = NoWallet | NoAccount | InsufficientFunds | Threw(call: Call) | Completed(handle: string)

  /** The three awaits of `prepareWallet`. */
  const WalletCalls: seq<Call> := [RequestAccounts, AddChain, SwitchChain]

  /** The character id `makeNotesData` is given while the batches are only estimated. */
  const RoughCharacterId := 123456

  /** `makeIpfsUrl`: the address of an uploaded file. */
  function IpfsUrl(w: World, path: string): string {
    "ipfs://" + w.cid(path)
  }

  /** A wallet exists and none of its three requests is rejected. */
  predicate Connected(w: World) {
    w.hasWallet && !Refused(w, RequestAccounts) && !Refused(w, AddChain) && !Refused(w, SwitchChain)
  }

  /** The plan `estimateBatch` makes from notes built with an empty image map. */
  function RoughPlan(useLocal: bool, ms: seq<Moment>, jsonLength: seq<Note> -> nat): Plan
    requires forall ns :: jsonLength(ns) >= 2
    reads set m | m in ms
  {
    EstimateBatch(jsonLength(MakeNotes(useLocal, map[], RoughCharacterId, ms)), |ms|)
  }

  // ---------------------------------------------------------------------
  // Images of the upload stage
  // ---------------------------------------------------------------------

  function ImagesOf(m: Moment): seq<string>
    reads m
  {
    if m.displayImages.Some? then m.displayImages.value else []
  }

  /** The display images of all moments, moment after moment. */
  function AllImages(ms: seq<Moment>): seq<string>
    reads set m | m in ms
    decreases |ms|
  {
    if ms == [] then [] else AllImages(ms[..|ms| - 1]) + ImagesOf(ms[|ms| - 1])
  }

  /** An image is uploaded exactly when it is a display image of some moment. */
  lemma {:induction false} AllImagesMembers(ms: seq<Moment>)
    ensures forall x :: x in AllImages(ms) <==> exists m :: m in ms && x in ImagesOf(m)
    decreases |ms|
  {
    if ms != [] {
      var init := ms[..|ms| - 1];
      AllImagesMembers(init);
      assert ms == init + [ms[|ms| - 1]];
      forall x | x in AllImages(ms) ensures exists m :: m in ms && x in ImagesOf(m) {
        if x in AllImages(init) {
          var m :| m in init && x in ImagesOf(m);
          assert m in ms;
        }
      }
    }
  }

  /** The `uploadImages` list: every display image of every moment, pushed in order. */
  method CollectImages(ms: seq<Moment>) returns (paths: seq<string>)
    ensures paths == AllImages(ms)
  {
    paths := [];
    for i := 0 to |ms|
      invariant paths == AllImages(ms[..i])
    {
      assert ms[..i + 1][..i] == ms[..i];
      if ms[i].displayImages.Some? {
        var imgs := ms[i].displayImages.value;
        for j := 0 to |imgs|
          invariant paths == AllImages(ms[..i]) + imgs[..j]
        {
          assert imgs[..j + 1] == imgs[..j] + [imgs[j]];
          paths := paths + [imgs[j]];
        }
        assert imgs[..|imgs|] == imgs;
      }
    }
    assert ms[..|ms|] == ms;
  }

  /** The `imageUrls` map once every upload resolved. */
  function UrlMap(w: World, paths: seq<string>): map<string, string> {
    map p | p in paths :: IpfsUrl(w, p)
  }

  /**
   * `imageUrls.set(image, url)` for each upload of the fan-out: the map has
   * exactly the uploaded paths as keys, each bound to its IPFS address.
   */
  method ImageUrls(w: World, paths: seq<string>) returns (urls: map<string, string>)
    ensures forall p :: p in urls <==> p in paths
    ensures forall p :: p in urls ==> urls[p] == IpfsUrl(w, p)
  {
    urls := map[];
    for i := 0 to |paths|
      invariant forall p :: p in urls <==> p in paths[..i]
      invariant forall p :: p in urls ==> urls[p] == IpfsUrl(w, p)
    {
      assert paths[..i + 1] == paths[..i] + [paths[i]];
      urls := urls[paths[i] := IpfsUrl(w, paths[i])];
    }
    assert paths[..|paths|] == paths;
  }

  // ---------------------------------------------------------------------
  // Halting on the first rejected await
  // ---------------------------------------------------------------------

  /** The last call issued was rejected, so the run stops there. */
  predicate Failed(w: World, calls: seq<Call>) {
    |calls| > 0 && Refused(w, calls[|calls| - 1])
  }

  predicate NoneRefused(w: World, calls: seq<Call>) {
    forall k :: 0 <= k < |calls| ==> !Refused(w, calls[k])
  }

  /**
   * `calls` is what a chain of awaits meant to issue `script` issues: it
   * follows `script`, every call but the last was accepted, and it either
   * issued all of `script` or stopped right after a rejected call.
   */
  predicate RunOf(w: World, script: seq<Call>, calls: seq<Call>) {
    calls <= script &&
    (forall k :: 0 <= k < |calls| - 1 ==> !Refused(w, calls[k])) &&
    (calls == script || Failed(w, calls))
  }

  /**
   * A chain of awaits ends without a rejection exactly when it issued its
   * whole script and no call of the script was rejected; otherwise some
   * call of the script was rejected.
   */
  lemma RunOfSucceeds(w: World, script: seq<Call>, calls: seq<Call>)
    requires RunOf(w, script, calls)
    ensures !Failed(w, calls) <==> calls == script && NoneRefused(w, script)
    ensures Failed(w, calls) ==> exists k :: 0 <= k < |script| && Refused(w, script[k])
  {
    if Failed(w, calls) {
      assert script[|calls| - 1] == calls[|calls| - 1];
    }
  }

  /** A stage that finished is followed by the next one. */
  lemma RunOfThen(w: World, a: seq<Call>, x: seq<Call>, b: seq<Call>, y: seq<Call>)
    requires RunOf(w, a, x) && !Failed(w, x) && RunOf(w, b, y)
    ensures RunOf(w, a + b, x + y)
    ensures Failed(w, x + y) == Failed(w, y)
  {
    assert x == a;
    if y == [] {
      assert x + y == x;
    } else {
      assert (x + y)[|x + y| - 1] == y[|y| - 1];
      forall k | 0 <= k < |x + y| - 1 ensures !Refused(w, (x + y)[k]) {
        if k < |x| {
          assert (x + y)[k] == x[k];
        } else {
          assert (x + y)[k] == y[k - |x|];
        }
      }
      if x + y != a + b {
        assert y != b;
      }
    }
  }

  /** A stage that stopped on a rejection ends the run: the later stages issue nothing. */
  lemma RunOfStops(w: World, a: seq<Call>, x: seq<Call>, b: seq<Call>)
    requires RunOf(w, a, x) && Failed(w, x)
    ensures RunOf(w, a + b, x)
  {
    assert a <= a + b;
  }

  // ---------------------------------------------------------------------
  // The stages of process
  // ---------------------------------------------------------------------

  /**
   * `prepareWallet`: without `window.ethereum` it issues nothing and
   * returns false; otherwise it awaits the three wallet requests in turn.
   */
  method PrepareWallet(w: World) returns (calls: seq<Call>, success: bool)
    ensures !w.hasWallet ==> calls == [] && !success
    ensures w.hasWallet ==> RunOf(w, WalletCalls, calls) && (success <==> !Failed(w, calls))
    ensures success <==> Connected(w)
  {
    if !w.hasWallet {
      return [], false;
    }
    calls := [RequestAccounts];
    if Refused(w, RequestAccounts) {
      return calls, false;
    }
    calls := calls + [AddChain];
    if Refused(w, AddChain) {
      return calls, false;
    }
    calls := calls + [SwitchChain];
    if Refused(w, SwitchChain) {
      return calls, false;
    }
    success := true;
  }

  /** The avatar or banner address of the profile: the remote one, or its upload. */
  function ProfileImageUrl(w: World, useLocal: bool, ref: string, base64: string -> string): string {
    if useLocal then IpfsUrl(w, DisplayRef(ref, true, base64)) else ref
  }

  function ProfileOf(w: World, useLocal: bool, account: Account, base64: string -> string,
                     md5: string -> string): Profile {
    CharacterProfile(w.address, Handle(account.id, md5), account,
                     ProfileImageUrl(w, useLocal, account.avatar, base64),
                     ProfileImageUrl(w, useLocal, account.banner, base64))
  }

  /** The character step when nothing fails: in local mode upload the avatar and the banner, then create. */
  function CharacterRun(w: World, useLocal: bool, account: Account, base64: string -> string,
                        md5: string -> string): seq<Call> {
    (if useLocal then [Upload(DisplayRef(account.avatar, true, base64)),
                       Upload(DisplayRef(account.banner, true, base64))] else [])
    + [CreateCharacter(ProfileOf(w, useLocal, account, base64, md5))]
  }

  /**
   * Step 2 of `process`: resolve the avatar and banner addresses (uploading
   * the display files in local mode, even an empty one), build the profile
   * and create the character.
   */
  method CreateCharacterStage(w: World, useLocal: bool, account: Account,
                              base64: string -> string, md5: string -> string)
    returns (calls: seq<Call>, log: seq<Line>, handle: string)
    requires account.displayAvatar == Some(DisplayRef(account.avatar, useLocal, base64))
    requires account.displayBanner == Some(DisplayRef(account.banner, useLocal, base64))
    ensures RunOf(w, CharacterRun(w, useLocal, account, base64, md5), calls)
    ensures handle == Handle(account.id, md5)
    ensures !Failed(w, calls) ==>
              log == [ProfileReady(ProfileOf(w, useLocal, account, base64, md5)), CharacterCreated(w.characterId)]
  {
    calls, log := [], [];
    handle := Handle(account.id, md5);
    var avatarUrl, bannerUrl := account.avatar, account.banner;
    if useLocal {
      var avatar := account.displayAvatar.value;
      calls := calls + [Upload(avatar)];
      if Refused(w, Upload(avatar)) {
        return;
      }
      avatarUrl := IpfsUrl(w, avatar);
      var banner := account.displayBanner.value;
      calls := calls + [Upload(banner)];
      if Refused(w, Upload(banner)) {
        return;
      }
      bannerUrl := IpfsUrl(w, banner);
    }
    var profile := BuildProfile(w.address, handle, account, avatarUrl, bannerUrl);
    log := log + [ProfileReady(profile)];
    calls := calls + [CreateCharacter(profile)];
    if Refused(w, CreateCharacter(profile)) {
      return;
    }
    log := log + [CharacterCreated(w.characterId)];
  }

  /** The image step when nothing fails: one fan-out over every display image, in local mode only. */
  function ImageRun(useLocal: bool, ms: seq<Moment>): seq<Call>
    reads set m | m in ms
  {
    if useLocal then [UploadAll(AllImages(ms))] else []
  }

  /** Step 3 of `process`: in local mode upload every display image and record its address. */
  method UploadImagesStage(w: World, useLocal: bool, ms: seq<Moment>)
    returns (calls: seq<Call>, log: seq<Line>, urls: map<string, string>)
    ensures RunOf(w, ImageRun(useLocal, ms), calls)
    ensures !Failed(w, calls) ==> urls == if useLocal then UrlMap(w, AllImages(ms)) else map[]
    ensures !Failed(w, calls) ==>
              log == if useLocal then [UploadingImages(|AllImages(ms)|), ImagesUploaded] else []
  {
    calls, log, urls := [], [], map[];
    if useLocal {
      var paths := CollectImages(ms);
      log := log + [UploadingImages(|paths|)];
      calls := [UploadAll(paths)];
      if Refused(w, UploadAll(paths)) {
        return;
      }
      urls := ImageUrls(w, paths);
      log := log + [ImagesUploaded];
    }
  }

  function PostCalls(bs: seq<seq<Note>>): seq<Call> {
    seq(|bs|, k requires 0 <= k < |bs| => PostMany(bs[k]))
  }

  /** The posting step when nothing fails: one `postMany` per slice of `size` notes. */
  function PostRun(notes: seq<Note>, size: nat): seq<Call> {
    if size > 0 then PostCalls(Batches(notes, size)) else []
  }

  /** The progress lines after each of the first `k` batches: `min((j + 1) * size, n)` notes. */
  function Progress(n: nat, size: nat, k: nat): seq<Line> {
    seq(k, j requires 0 <= j < k => Posted(Min((j + 1) * size, n)))
  }

  /** The number of `postMany` calls of a complete run. */
  function Rounds(n: nat, size: nat): nat {
    if size == 0 then 0 else CeilDiv(n, size)
  }

  /** The lines logged after the batches are the planned progress counts. */
  lemma ProgressLines(reported: seq<nat>, n: nat, size: nat)
    requires size > 0 && |reported| == CeilDiv(n, size)
    requires forall k :: 0 <= k < |reported| ==> reported[k] == Min((k + 1) * size, n)
    ensures seq(|reported|, k requires 0 <= k < |reported| => Posted(reported[k])) == Progress(n, size, Rounds(n, size))
  {
  }

  /**
   * The `postMany` calls of the posting loop follow the slices and stop
   * right after the first rejected one.
   */
  lemma PostsRunOf(w: World, all: seq<seq<Note>>, batches: seq<seq<Note>>, halted: bool)
    requires |batches| <= |all| && batches == all[..|batches|]
    requires forall k :: 0 <= k < |batches| - 1 ==> !Refused(w, PostMany(batches[k]))
    requires halted ==> |batches| > 0 && Refused(w, PostMany(batches[|batches| - 1]))
    requires !halted ==> batches == all
    ensures RunOf(w, PostCalls(all), PostCalls(batches))
  {
    var calls := PostCalls(batches);
    assert calls == PostCalls(all)[..|batches|];
    forall k | 0 <= k < |calls| - 1 ensures !Refused(w, calls[k]) {
      assert calls[k] == PostMany(batches[k]);
    }
    if halted {
      assert calls[|calls| - 1] == PostMany(batches[|batches| - 1]);
    }
  }

  /**
   * Step 4 of `process`: post the slices in order, logging the number of
   * notes posted so far after each; a rejected slice ends the run.
   */
  method PostStage(w: World, notes: seq<Note>, size: nat) returns (calls: seq<Call>, log: seq<Line>)
    requires |notes| > 0 ==> size > 0
    ensures RunOf(w, PostRun(notes, size), calls)
    ensures !Failed(w, calls) ==> log == Progress(|notes|, size, Rounds(|notes|, size))
  {
    var batches, reported, halted := PostInBatches(notes, size, b => Refused(w, PostMany(b)));
    calls := PostCalls(batches);
    log := seq(|reported|, k requires 0 <= k < |reported| => Posted(reported[k]));
    if |notes| > 0 {
      PostsRunOf(w, Batches(notes, size), batches, halted);
      if !halted {
        BatchesCount(notes, size);
        ProgressLines(reported, |notes|, size);
      }
    }
  }

  /** The notes `process` posts once the character exists and the images are uploaded. */
  function FinalNotes(w: World, useLocal: bool, ms: seq<Moment>): seq<Note>
    reads set m | m in ms
  {
    MakeNotes(useLocal, if useLocal then UrlMap(w, AllImages(ms)) else map[], w.characterId, ms)
  }

  /** The calls after `prepareWallet` of a run in which nothing fails and the balance suffices. */
  function PublishRun(w: World, useLocal: bool, account: Account, ms: seq<Moment>,
                      base64: string -> string, md5: string -> string,
                      jsonLength: seq<Note> -> nat): seq<Call>
    requires forall ns :: jsonLength(ns) >= 2
    reads set m | m in ms
  {
    [GetBalance(w.address)]
    + (CharacterRun(w, useLocal, account, base64, md5) + ImageRun(useLocal, ms)
       + PostRun(FinalNotes(w, useLocal, ms), RoughPlan(useLocal, ms, jsonLength).size))
  }

  /** The payloads of the `postMany` calls of a trace, in order. */
  function Posts(calls: seq<Call>): seq<seq<Note>>
    decreases |calls|
  {
    if calls == [] then []
    else (if calls[0].PostMany? then [calls[0].notes] else []) + Posts(calls[1..])
  }

  lemma {:induction false} PostsAppend(a: seq<Call>, b: seq<Call>)
    ensures Posts(a + b) == Posts(a) + Posts(b)
    decreases |a|
  {
    if a != [] {
      assert (a + b)[1..] == a[1..] + b;
      PostsAppend(a[1..], b);
    } else {
      assert a + b == b;
    }
  }

  lemma {:induction false} PostsNone(calls: seq<Call>)
    requires forall k :: 0 <= k < |calls| ==> !calls[k].PostMany?
    ensures Posts(calls) == []
    decreases |calls|
  {
    if calls != [] {
      PostsNone(calls[1..]);
    }
  }

  lemma {:induction false} PostsOfPostCalls(bs: seq<seq<Note>>)
    ensures Posts(PostCalls(bs)) == bs
    decreases |bs|
  {
    if bs != [] {
      assert PostCalls(bs)[1..] == PostCalls(bs[1..]);
      PostsOfPostCalls(bs[1..]);
    }
  }

  /**
   * The slices of the posting step, after a setup that posts nothing,
   * concatenated are the notes; each is non-empty and at most `size` long.
   */
  lemma PostRunPosts(head: seq<Call>, notes: seq<Note>, size: nat)
    requires Posts(head) == [] && (|notes| > 0 ==> size > 0)
    ensures var posts := Posts(head + PostRun(notes, size));
            Flatten(posts) == notes && |posts| == Rounds(|notes|, size) &&
            forall b :: b in posts ==> 0 < |b| <= size
  {
    var tail := PostRun(notes, size);
    PostsAppend(head, tail);
    assert Posts(head + tail) == Posts(tail);
    if size > 0 {
      PostsOfPostCalls(Batches(notes, size));
      BatchesFlatten(notes, size);
      BatchesCount(notes, size);
      BatchesBounded(notes, size);
    }
  }

  /** Before the posting step a run posts nothing. */
  lemma SetupPostsNothing(w: World, useLocal: bool, account: Account, ms: seq<Moment>,
                          base64: string -> string, md5: string -> string)
    ensures Posts([GetBalance(w.address)] + CharacterRun(w, useLocal, account, base64, md5) + ImageRun(useLocal, ms)) == []
  {
    var h1, h2, h3 := [GetBalance(w.address)], CharacterRun(w, useLocal, account, base64, md5), ImageRun(useLocal, ms);
    PostsNone(h1);
    PostsNone(h2);
    PostsNone(h3);
    PostsAppend(h1, h2);
    PostsAppend(h1 + h2, h3);
  }

  /**
   * The posting stage of a complete run: its `postMany` payloads,
   * concatenated in order, are exactly the notes; there are
   * `ceil(n / batchSize)` of them, no more than the planned `batchCount`,
   * each non-empty and at most `batchSize` long.
   */
  lemma PublishRunPosts(w: World, useLocal: bool, account: Account, ms: seq<Moment>,
                        base64: string -> string, md5: string -> string,
                        jsonLength: seq<Note> -> nat)
    requires forall ns :: jsonLength(ns) >= 2
    ensures var plan := RoughPlan(useLocal, ms, jsonLength);
            var posts := Posts(PublishRun(w, useLocal, account, ms, base64, md5, jsonLength));
            Flatten(posts) == FinalNotes(w, useLocal, ms) &&
            |posts| <= plan.count &&
            |posts| == Rounds(|ms|, plan.size) &&
            forall b :: b in posts ==> 0 < |b| <= plan.size
  {
    var plan := RoughPlan(useLocal, ms, jsonLength);
    var notes := FinalNotes(w, useLocal, ms);
    var head := [GetBalance(w.address)] + CharacterRun(w, useLocal, account, base64, md5) + ImageRun(useLocal, ms);
    assert PublishRun(w, useLocal, account, ms, base64, md5, jsonLength) == head + PostRun(notes, plan.size);
    SetupPostsNothing(w, useLocal, account, ms, base64, md5);
    PostRunPosts(head, notes, plan.size);
    if |ms| > 0 {
      CallsWithinPlan(jsonLength(MakeNotes(useLocal, map[], RoughCharacterId, ms)), |ms|);
    }
  }

  /** `log` ends with the progress lines of all `Rounds(n, size)` batches. */
  predicate EndsWithProgress(log: seq<Line>, n: nat, size: nat) {
    var k := Rounds(n, size);
    |log| >= k && log[|log| - k..] == Progress(n, size, k)
  }

  lemma EndsWithProgressAfter(a: seq<Line>, b: seq<Line>, n: nat, size: nat)
    requires EndsWithProgress(b, n, size)
    ensures EndsWithProgress(a + b, n, size)
  {
    var k := Rounds(n, size);
    assert (a + b)[|a + b| - k..] == b[|b| - k..];
  }

  /**
   * Steps 3 and 4 of `process`: upload the images, then post the notes in
   * slices of `size`, logging the total and the planned `count` first.
   */
  method UploadAndPost(w: World, useLocal: bool, ms: seq<Moment>, count: nat, size: nat)
    returns (calls: seq<Call>, log: seq<Line>)
    requires |ms| > 0 ==> size > 0
    ensures RunOf(w, ImageRun(useLocal, ms) + PostRun(FinalNotes(w, useLocal, ms), size), calls)
    ensures !Failed(w, calls) ==> EndsWithProgress(log, |ms|, size)
  {
    ghost var imageRun := ImageRun(useLocal, ms);
    ghost var postRun := PostRun(FinalNotes(w, useLocal, ms), size);

    var urls;
    calls, log, urls := UploadImagesStage(w, useLocal, ms);
    if Failed(w, calls) {
      RunOfStops(w, imageRun, calls, postRun);
      return;
    }

    var notes := MakeNotes(useLocal, urls, w.characterId, ms);
    assert notes == FinalNotes(w, useLocal, ms);
    log := log + [Posting(|notes|, count, size)];
    var more, lines := PostStage(w, notes, size);
    RunOfThen(w, imageRun, calls, postRun, more);
    calls, log := calls + more, log + lines;
  }

  /** The calls of a run after the fee gate, when nothing fails. */
  function CreateAndPostRun(w: World, useLocal: bool, account: Account, ms: seq<Moment>,
                            base64: string -> string, md5: string -> string, size: nat): seq<Call>
    reads set m | m in ms
  {
    CharacterRun(w, useLocal, account, base64, md5) + ImageRun(useLocal, ms) + PostRun(FinalNotes(w, useLocal, ms), size)
  }

  /**
   * Steps 2 to 4 of `process`, once the balance passed the gate: create the
   * character, upload the images and post the notes in slices of `size`.
   */
  method CreateAndPost(w: World, useLocal: bool, account: Account, ms: seq<Moment>,
                       base64: string -> string, md5: string -> string, count: nat, size: nat)
    returns (calls: seq<Call>, log: seq<Line>, handle: string)
    requires |ms| > 0 ==> size > 0
    requires account.displayAvatar == Some(DisplayRef(account.avatar, useLocal, base64))
    requires account.displayBanner == Some(DisplayRef(account.banner, useLocal, base64))
    ensures RunOf(w, CreateAndPostRun(w, useLocal, account, ms, base64, md5, size), calls)
    ensures handle == Handle(account.id, md5)
    ensures !Failed(w, calls) ==> EndsWithProgress(log, |ms|, size)
  {
    ghost var characterRun := CharacterRun(w, useLocal, account, base64, md5);
    ghost var imageRun, postRun := ImageRun(useLocal, ms), PostRun(FinalNotes(w, useLocal, ms), size);
    ghost var laterRun := imageRun + postRun;
    AppendAssoc(characterRun, imageRun, postRun);

    calls, log, handle := CreateCharacterStage(w, useLocal, account, base64, md5);
    if Failed(w, calls) {
      RunOfStops(w, characterRun, calls, laterRun);
      return;
    }
    var more, lines := UploadAndPost(w, useLocal, ms, count, size);
    RunOfThen(w, characterRun, calls, laterRun, more);
    if !Failed(w, more) {
      EndsWithProgressAfter(log, lines, |ms|, size);
    }
    calls, log := calls + more, log + lines;
  }

  /** The last line of the log is `line`. */
  predicate LastLineIs(log: seq<Line>, line: Line) {
    |log| > 0 && log[|log| - 1] == line
  }

  /**
   * Everything `process` does after `prepareWallet` and `prepareMoments`:
   * the balance query and the fee gate, then `CreateAndPost`. Below the fee
   * estimate it stops right after the balance query; otherwise its calls
   * follow `PublishRun` up to the first rejected one, and it completes
   * exactly when none of them is rejected.
   */
  method Publish(w: World, useLocal: bool, account: Account, ms: seq<Moment>,
                 base64: string -> string, md5: string -> string, jsonLength: seq<Note> -> nat)
    returns (outcome: Outcome, calls: seq<Call>, log: seq<Line>, ghost plan: Plan, ghost run: seq<Call>)
    requires forall ns :: jsonLength(ns) >= 2
    requires account.displayAvatar == Some(DisplayRef(account.avatar, useLocal, base64))
    requires account.displayBanner == Some(DisplayRef(account.banner, useLocal, base64))
    ensures plan == RoughPlan(useLocal, ms, jsonLength)
    ensures run == PublishRun(w, useLocal, account, ms, base64, md5, jsonLength)
    ensures outcome.InsufficientFunds? || outcome.Threw? || outcome.Completed?
    ensures |log| > 0 && log[0] == WalletReady(w.address)
    ensures outcome.Threw? <==> Failed(w, calls)
    ensures outcome.Threw? ==> outcome.call == calls[|calls| - 1]
    ensures outcome.InsufficientFunds? <==>
              !Refused(w, GetBalance(w.address)) && w.balanceWei < FeeWei(plan.count)
    ensures outcome.InsufficientFunds? ==>
              log == [WalletReady(w.address), BalanceLow(w.balanceWei, FeeWei(plan.count))]
    ensures w.balanceWei < FeeWei(plan.count) ==> calls == [GetBalance(w.address)]
    ensures !outcome.InsufficientFunds? ==> RunOf(w, run, calls)
    ensures outcome.Completed? <==> w.balanceWei >= FeeWei(plan.count) && NoneRefused(w, run)
    ensures outcome.Completed? ==> outcome.handle == Handle(account.id, md5)
    ensures outcome.Completed? ==>
              LastLineIs(log, Finished(outcome.handle)) &&
              EndsWithProgress(log[..|log| - 1], |ms|, plan.size)
  {
    log := [WalletReady(w.address)];
    calls := [GetBalance(w.address)];
    var rough := MakeNotes(useLocal, map[], RoughCharacterId, ms);
    var batch := EstimateBatch(jsonLength(rough), |rough|);
    plan := batch;
    assert plan == RoughPlan(useLocal, ms, jsonLength);
    ghost var rest := CreateAndPostRun(w, useLocal, account, ms, base64, md5, plan.size);
    run := PublishRun(w, useLocal, account, ms, base64, md5, jsonLength);
    assert run == calls + rest;
    if Refused(w, GetBalance(w.address)) {
      RunOfStops(w, calls, calls, rest);
      RunOfSucceeds(w, run, calls);
      outcome := Threw(GetBalance(w.address));
      return;
    }
    var fee := FeeWei(batch.count);
    if w.balanceWei < fee {
      log := log + [BalanceLow(w.balanceWei, fee)];
      outcome := InsufficientFunds;
      return;
    }
    var more, lines, handle := CreateAndPost(w, useLocal, account, ms, base64, md5, batch.count, batch.size);
    RunOfThen(w, calls, calls, rest, more);
    calls, log := calls + more, log + lines;
    RunOfSucceeds(w, run, calls);
    if Failed(w, calls) {
      outcome := Threw(calls[|calls| - 1]);
      return;
    }
    EndsWithProgressAfter([WalletReady(w.address)], lines, |ms|, batch.size);
    log := log + [Finished(handle)];
    outcome := Completed(handle);
  }

  lemma AppendAssoc<T>(a: seq<T>, b: seq<T>, c: seq<T>)
    ensures (a + b) + c == a + (b + c)
  {
  }

  /**
   * Appending the calls of a later stage to a connected wallet's calls: the
   * last call and the failure are the later stage's, and a run of `run`
   * extends to a run of `WalletCalls + run`.
   */
  lemma AfterWallet(w: World, calls: seq<Call>, rest: seq<Call>, run: seq<Call>)
    requires RunOf(w, WalletCalls, calls) && !Failed(w, calls)
    ensures Failed(w, calls + rest) == Failed(w, rest)
    ensures |rest| > 0 ==> (calls + rest)[|calls + rest| - 1] == rest[|rest| - 1]
    ensures calls + rest == WalletCalls + rest
    ensures RunOf(w, run, rest) ==> RunOf(w, WalletCalls + run, calls + rest)
  {
    if rest == [] {
      assert calls + rest == calls;
    } else {
      assert (calls + rest)[|calls + rest| - 1] == rest[|rest| - 1];
    }
    if RunOf(w, run, rest) {
      RunOfThen(w, WalletCalls, calls, run, rest);
    }
  }

  /**
   * What `process` does once the wallet is connected: `prepareMoments` on
   * the chronological selection `ms`, the throw when the export has no
   * account, then `Publish`. `rest` holds the calls after the wallet's;
   * `fee` and `run` name the fee estimate and the script of `Publish` on
   * the prepared moments.
   */
  method PrepareAndPublish(all: seq<Moment>, blacklist: set<string>, account: Account?, useLocal: bool,
                           w: World, base64: string -> string, md5: string -> string,
                           jsonLength: seq<Note> -> nat, ghost ms: seq<Moment>)
    returns (outcome: Outcome, rest: seq<Call>, log: seq<Line>, ghost fee: nat, ghost run: seq<Call>)
    requires forall ns :: jsonLength(ns) >= 2
    requires Connected(w) && ms == Chronological(all, blacklist)
    modifies (set m | m in all && m.id !in blacklist), account
    ensures forall m :: m in all && m.id !in blacklist ==>
              Prepared(m, old(m.kind), old(m.shareImage), useLocal, base64)
    ensures fee == FeeWei(RoughPlan(useLocal, ms, jsonLength).count)
    ensures account != null ==> run == PublishRun(w, useLocal, account, ms, base64, md5, jsonLength)
    ensures outcome.NoAccount? <==> account == null
    ensures outcome.NoAccount? ==> rest == [] && log == []
    ensures outcome.Threw? <==> Failed(w, rest)
    ensures outcome.Threw? ==> outcome.call == rest[|rest| - 1]
    ensures account != null && !outcome.InsufficientFunds? ==> RunOf(w, run, rest)
    ensures outcome.InsufficientFunds? <==>
              account != null && !Refused(w, GetBalance(w.address)) && w.balanceWei < fee
    ensures account != null && w.balanceWei < fee ==> rest == [GetBalance(w.address)]
    ensures outcome.Completed? <==> account != null && w.balanceWei >= fee && NoneRefused(w, run)
    ensures outcome.Completed? ==>
              outcome.handle == Handle(account.id, md5) && LastLineIs(log, Finished(outcome.handle))
  {
    var moments, ok := PrepareMoments(all, blacklist, Asc, account, useLocal, base64);
    assert moments == ms;
    if !ok {
      outcome, rest, log := NoAccount, [], [];
      fee, run := FeeWei(RoughPlan(useLocal, ms, jsonLength).count), [];
      return;
    }
    ghost var plan;
    outcome, rest, log, plan, run := Publish(w, useLocal, account, moments, base64, md5, jsonLength);
    fee := FeeWei(plan.count);
  }

  /**
   * `process(useLocal, setInfo)`. `all` and `blacklist` are the export's
   * moments and the blacklisted ids, `account` its account (`null` when the
   * export has none); `base64`, `md5` and `jsonLength` stand for
   * `Buffer.toString("base64")`, the MD5 hex digest and the length of
   * `JSON.stringify`. The ghost results name the chronological selection
   * `ms` and, once the wallet is connected, the fee estimate `fee` and the
   * script `run` after the wallet's calls, both on the moments as prepared.
   */
  method Process(all: seq<Moment>, blacklist: set<string>, account: Account?, useLocal: bool, w: World,
                 base64: string -> string, md5: string -> string, jsonLength: seq<Note> -> nat)
    returns (outcome: Outcome, calls: seq<Call>, log: seq<Line>,
             ghost ms: seq<Moment>, ghost fee: nat, ghost run: seq<Call>)
    requires forall ns :: jsonLength(ns) >= 2
    modifies (set m | m in all && m.id !in blacklist), account
    ensures ms == Chronological(all, blacklist)
    ensures Connected(w) ==> fee == FeeWei(RoughPlan(useLocal, ms, jsonLength).count)
    ensures Connected(w) && account != null ==> run == PublishRun(w, useLocal, account, ms, base64, md5, jsonLength)
    ensures !w.hasWallet ==> outcome == NoWallet && calls == [] && log == [InstallWallet]
    ensures !Connected(w) ==> forall m :: m in all ==> unchanged(m)
    ensures Connected(w) ==>
              forall m :: m in all && m.id !in blacklist ==>
                Prepared(m, old(m.kind), old(m.shareImage), useLocal, base64)
    ensures outcome.Threw? <==> Failed(w, calls)
    ensures outcome.Threw? ==> outcome.call == calls[|calls| - 1]
    ensures w.hasWallet && account == null ==> RunOf(w, WalletCalls, calls)
    ensures outcome.NoAccount? <==> Connected(w) && account == null
    ensures outcome.NoAccount? ==> calls == WalletCalls && log == []
    ensures w.hasWallet && account != null && !outcome.InsufficientFunds? ==>
              RunOf(w, WalletCalls + run, calls)
    ensures outcome.InsufficientFunds? <==>
              Connected(w) && account != null && !Refused(w, GetBalance(w.address)) && w.balanceWei < fee
    ensures account != null && w.balanceWei < fee ==> calls <= WalletCalls + [GetBalance(w.address)]
    ensures outcome.Completed? <==>
              Connected(w) && account != null && w.balanceWei >= fee && NoneRefused(w, run)
    ensures outcome.Completed? ==>
              outcome.handle == Handle(account.id, md5) && LastLineIs(log, Finished(outcome.handle))
  {
    ms := Chronological(all, blacklist);
    var connected;
    calls, connected := PrepareWallet(w);
    if !connected {
      fee, run := 0, [];
      if !w.hasWallet {
        outcome, log := NoWallet, [InstallWallet];
      } else {
        outcome, log := Threw(calls[|calls| - 1]), [];
      }
      return;
    }

    var rest;
    outcome, rest, log, fee, run := PrepareAndPublish(all, blacklist, account, useLocal, w, base64, md5, jsonLength, ms);
    AfterWallet(w, calls, rest, run);
    calls := calls + rest;
  }
}
