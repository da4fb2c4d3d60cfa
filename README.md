# Moments migration to Crossbell — a Dafny model

This project models the core of a one-page web tool that moves an exported
WeChat or QQ-Zone "moments" archive onto the Crossbell chain. It covers the
archive preparation and the upload run, all in `app/page.tsx`:

- **Selection** (`getMoments`): drop blacklisted moments, sort the rest
  oldest first by publish time, and reverse the list for newest first.
- **Preparation** (`prepareMoment`, `prepareMoments`):
  - Compute each moment's display images. A `/150` thumbnail is dropped when
    its `/0` full size is also in the list. In local mode every image becomes
    a `/images/<base64>.jpg` path.
  - Force a moment with no share fields to be a text post.
  - Give a share post its first display image as `share_image`.
  - Derive the account's display avatar and banner.
- **Notes** (`makeNotesData`): one Crossbell note per moment. A share post
  with a URL becomes a link post; every other moment becomes a text post
  with its images attached.
- **Batch planning** (`estimateBatch`): choose the batch count from the JSON
  size, three times the JSON length over 128000, rounded up. The batch size
  is the moments spread evenly over those batches.
- **The upload run** (`process`), in order:
  1. Connect the wallet.
  2. Check the balance against the fee estimate: 11540011 gwei per batch
     plus 315103 gwei for the character.
  3. Create the character under the handle `wx-` followed by 8 MD5 hex
     digits.
  4. In local mode, upload every display image to IPFS.
  5. Post the notes in consecutive slices of the batch size, with a
     progress line after each slice.

`wrappers.dfy` holds the option type that stands for `undefined`.

`strings.dfy` holds the JavaScript string operations the code relies on. It
gives `indexOf`, a first-occurrence `replace`, `endsWith` and `slice`.

`moments.dfy` follows `getMoments`, `prepareMoment` and `prepareMoments`:

- A moment and the account are classes. `prepareMoment` and
  `prepareMoments` assign their `display_images`, `type`, `share_image`,
  `displayAvatar` and `displayBanner` fields in place.
- Moving items between lists is specified with functions on sequences.
- The `reverse` of the newest-first order is an in-place array method.

`notes.dfy` holds the notes, the handle and the character profile.

`batching.dfy` holds the plan, the fee and the posting loop.

`pipeline.dfy` holds `prepareWallet` and `process`. Every awaited external
call is one entry of a call trace. A `World` value stands for the outside
world. It says:

- whether a wallet exists and its address and balance;
- the character id the chain returns;
- the IPFS cid of each upload;
- which calls reject.

A rejected await is never caught, so the run stops right after it. The
predicate `RunOf` states this: a run's trace is the script of a fully
successful run, cut off just after the first rejected call.

Two behaviours of the code are modelled as written:

- With no account in the archive, `prepareMoments` has already prepared the
  moments. It then writes to `account.displayAvatar` on `undefined`, which
  throws. The placeholder account at lines 120-131 is therefore never
  reached. The model ends such a run with the outcome `NoAccount`.
- In local mode, the avatar and the banner are uploaded even when their
  display path is empty.

## Model

| member | source | states |
|---|---|---|
| Strings.IndexOf | app/page.tsx:64 | the result is -1 or an index from `from` at which the pattern occurs, and no earlier index from `from` holds it (`indexOf`, used by `replace`) |
| Strings.ReplaceFirstSpec | app/page.tsx:64 | `replace` with a string pattern returns the input when the pattern is absent, and otherwise rewrites only the first occurrence |
| Strings.ReplaceSuffix | app/page.tsx:63-64 | when the only occurrence of the pattern is the suffix, `replace` rewrites that suffix |
| Strings.Take | app/page.tsx:276 | `slice(0, n)` is a prefix of length `min(n, len)` |
| Moments.Unblocked | app/page.tsx:47-48 | every kept moment is in the archive and not blacklisted, every non-blacklisted archive moment is kept, and the list never grows |
| Moments.UnblockedMultiset | app/page.tsx:47-48 | every non-blacklisted moment is kept exactly as many times as the archive holds it, and a blacklisted one never |
| Moments.UnblockedAppend | app/page.tsx:47-48 | filtering distributes over concatenation, so the kept moments stay in archive order |
| Moments.UnblockedMembers | app/page.tsx:47-48 | a moment is kept if and only if it is in the archive and its id is not blacklisted |
| Moments.UnblockedIdempotent | app/page.tsx:47-48 | filtering twice by the blacklist is the same as filtering once |
| Moments.InsertByTime | app/page.tsx:49-51 | inserting into a list sorted by publish time keeps it sorted and adds exactly that moment |
| Moments.SortByTime | app/page.tsx:49-51 | the result is sorted by ascending publish time and is a permutation of the input |
| Moments.Reversed | app/page.tsx:54 | `reverse` puts element `i` at position `len - 1 - i` |
| Moments.ReversedTwice | app/page.tsx:54 | reversing twice gives the list back |
| Moments.ReversedMultiset | app/page.tsx:54 | reversing is a permutation |
| Moments.ReversedMembers | app/page.tsx:54 | reversing keeps exactly the same members |
| Moments.ReversedDescending | app/page.tsx:54 | the reverse of an ascending list is descending by publish time |
| Moments.ChronologicalProperties | app/page.tsx:47-51 | the oldest-first selection is sorted, is a permutation of the unblocked moments, and holds exactly the archive's non-blacklisted moments |
| Moments.SelectionProperties | app/page.tsx:41-57 | for either order the selection holds exactly the non-blacklisted moments as a permutation, each as often as the archive holds it; "asc" is ascending; "desc" is the reverse of "asc" and descending |
| Moments.SelectionMembers | app/page.tsx:47-54 | a moment is selected, in either order, if and only if it is in the archive and not blacklisted |
| Moments.ReverseInPlace | app/page.tsx:54 | the array afterwards is the reverse of the array before |
| Moments.GetMoments | app/page.tsx:41-57 | the returned moments are the selection for the requested order |
| Moments.KeptMembership | app/page.tsx:62-67 | the walk keeps an image if and only if it is in the list and is not a `/150` thumbnail whose `/0` sibling is in the list |
| Moments.KeptAppend | app/page.tsx:62-72 | the walk treats each image independently, so it distributes over concatenation and keeps the images' order |
| Moments.UrlsAt | app/page.tsx:68-71 | the k-th display entry is the k-th kept image's URL: the image itself remotely, `/images/<base64>.jpg` locally |
| Moments.DisplayThumbnailRule | app/page.tsx:60-74 | `display_images` is never longer than `images`, and an image is dropped exactly when it ends in `/150` and its first-occurrence `/0` replacement is also among the images |
| Moments.SiblingFirstOccurrence | app/page.tsx:63-64 | for `a/150/150` the sibling is `a/0/150`, not `a/150/0`, so that thumbnail is kept next to `a/150/0` |
| Moments.DisplayRemote | app/page.tsx:68-71 | in remote mode every display image is one of the moment's own images and passed the thumbnail rule |
| Moments.DisplayLocal | app/page.tsx:68-71 | in local mode there is one display path per kept image, each the local path of that image |
| Moments.LocalPathInjective | app/page.tsx:69 | with an injective base64 encoding, distinct images get distinct local paths |
| Moments.WalkImages | app/page.tsx:60-72 | the loop builds exactly the display list of the thumbnail rule |
| Moments.PrepareIdempotent | app/page.tsx:80-95 | running the type forcing and the share-image step again changes neither `type` nor `share_image` |
| Moments.PrepareMoment | app/page.tsx:59-98 | sets `display_images`; forces `text` exactly when all three share fields are null or empty and otherwise keeps the type; a share post gets its first display image or `""` as `share_image`; a text post keeps its old `share_image` |
| Moments.PrepareAccount | app/page.tsx:108-118 | remotely the display avatar and banner are the originals; locally each is its local path, or `""` for an empty reference |
| Moments.PrepareEach | app/page.tsx:105-107 | every selected moment ends in the state `prepareMoment` leaves it in, computed from its own state before |
| Moments.PrepareMoments | app/page.tsx:100-133 | returns the selection; every selected moment is prepared; succeeds exactly when an account exists, and then sets its display avatar and banner |
| Notes.MakeNotes | app/page.tsx:186-216 | one note per moment, in the same order, each built from its own moment |
| Notes.AttachmentsAt | app/page.tsx:207-212 | the k-th attachment is the k-th display image, as the original or as its uploaded address, with type `image/jpeg` |
| Notes.NoteShape | app/page.tsx:192-214 | every note has the character id, the publish time and the exporter source; a share post with a URL becomes a link post with the content and the URL and no attachments; any other moment becomes a plain post of its content, with attachments exactly when it has display images |
| Notes.NotesResolved | app/page.tsx:201-209 | in local mode, when every display image was uploaded and each share post's image is its first display image, every attachment has an address and the link post of a moment with images has its image |
| Notes.NotesChronological | app/page.tsx:192-196 | notes of moments sorted by time carry non-decreasing publish dates |
| Notes.Handle | app/page.tsx:276 | the handle is `wx-` followed by the first 8 characters of the MD5 digest of the account id |
| Notes.CharacterProfile | app/page.tsx:278-293 | the profile has the owner, handle and nickname; it has banners exactly when the account has a banner, avatars exactly when it has an avatar, and a bio exactly when the bio is not null or empty |
| Notes.BuildProfile | app/page.tsx:278-293 | the imperatively built profile equals `CharacterProfile` |
| Batching.CeilDivSpec | app/page.tsx:223-224 | `Math.ceil(a / b)` is the least `q` with `q * b >= a` |
| Batching.CeilDivUnique | app/page.tsx:223-224 | any `q` with `(q - 1) * b < a <= q * b` is the rounded-up quotient |
| Batching.EstimateBatch | app/page.tsx:218-226 | at least one batch; the count is the least with `count * 128000 >= 3 * size`; the batch size is positive exactly when there are notes; `count * size` covers every note, and a batch fewer would not |
| Batching.BatchesCount | app/page.tsx:338-339 | slicing `n` notes by `size` gives `ceil(n / size)` slices |
| Batching.BatchesBounded | app/page.tsx:338-339 | every slice is non-empty and at most `size` long |
| Batching.BatchesFlatten | app/page.tsx:338-339 | the slices concatenated in order are the notes |
| Batching.BatchAt | app/page.tsx:338-339 | slice `j` is `notes.slice(j * size, (j + 1) * size)` |
| Batching.BatchesPrefix | app/page.tsx:338-343 | after `k` slices, `min(k * size, n)` notes are covered |
| Batching.CallsWithinPlan | app/page.tsx:223-224 | the slices posted never outnumber the planned batch count |
| Batching.FeeCoversCalls | app/page.tsx:248-252 | the fee the gate demands, in gwei and in wei, covers one posting fee for each `postMany` call the slicing by the planned size issues plus the character creation |
| Batching.PostInBatches | app/page.tsx:338-345 | the loop posts the slices in order up to the first rejected one; without a rejection it posts all slices; after slice `k` it reports `min((k + 1) * size, n)` posted, the last report being `n` |
| Batching.PlanExample | app/page.tsx:218-226 | 300 notes of 300000 JSON characters give 8 batches of 38 |
| Batching.PlannedCountNotTight | app/page.tsx:223-224 | two notes with a large payload plan 8 batches of one note, but only 2 are posted |
| Pipeline.AllImagesMembers | app/page.tsx:311-315 | an image is collected exactly when it is a display image of some moment |
| Pipeline.CollectImages | app/page.tsx:309-315 | the nested loops collect every display image, moment after moment |
| Pipeline.ImageUrls | app/page.tsx:320-325 | the map has exactly the collected images as keys, each mapped to `ipfs://` + its cid |
| Pipeline.RunOfSucceeds | app/page.tsx:228-349 | a chain of awaits ends without a rejection exactly when it issued its whole script and no call rejected |
| Pipeline.RunOfThen | app/page.tsx:228-349 | a stage that finished is followed by the next one, and the combined chain fails exactly when the later stage fails |
| Pipeline.RunOfStops | app/page.tsx:228-349 | a stage that failed ends the whole run |
| Pipeline.PrepareWallet | app/page.tsx:164-174 | without a wallet nothing is requested and the result is false; otherwise the three requests are awaited in turn, and the result is true exactly when none rejects |
| Pipeline.CreateCharacterStage | app/page.tsx:267-304 | locally uploads the display avatar and banner first; creates the character with the profile of the resolved addresses; the handle is `Handle`; logs the profile and then the character id |
| Pipeline.UploadImagesStage | app/page.tsx:306-329 | only in local mode, one fan-out over all display images, after which each maps to its IPFS address; logs the image count and completion |
| Pipeline.ProgressLines | app/page.tsx:343 | the reports of a full posting loop are the progress lines `min((k + 1) * size, n)` |
| Pipeline.PostsRunOf | app/page.tsx:338-345 | the loop's posts form a run of the full posting script |
| Pipeline.PostStage | app/page.tsx:338-345 | the posting calls follow the slices up to the first rejection; a complete loop logs one progress line per slice |
| Pipeline.PostsOfPostCalls | app/page.tsx:340-342 | the payloads of the posting calls are the slices |
| Pipeline.PostRunPosts | app/page.tsx:338-345 | after a setup that posts nothing, the payloads concatenate to the notes, number `ceil(n / size)`, and are each non-empty and at most `size` long |
| Pipeline.SetupPostsNothing | app/page.tsx:242-329 | nothing before step 4 posts notes |
| Pipeline.PublishRunPosts | app/page.tsx:331-345 | in a complete run the posted payloads concatenate to the final notes, number `ceil(n / batchSize)`, never exceed `batchCount`, and are each at most `batchSize` long |
| Pipeline.EndsWithProgressAfter | app/page.tsx:335-345 | earlier lines do not disturb the progress lines at the end of the log |
| Pipeline.UploadAndPost | app/page.tsx:306-345 | the image upload then the posting follow their script up to the first rejection; without a rejection the log ends with every progress line |
| Pipeline.CreateAndPost | app/page.tsx:267-345 | character creation, image upload and posting follow their script up to the first rejection; gives the handle; without a rejection the log ends with every progress line |
| Pipeline.Publish | app/page.tsx:238-349 | queries the balance; stops with the low-balance log exactly when the balance is below the fee of the rough plan; otherwise follows the rest of the run up to the first rejection and completes exactly when nothing rejects, ending the log with the progress lines and the final handle line |
| Pipeline.AfterWallet | app/page.tsx:230-242 | a connected wallet's calls followed by a later stage fail exactly when that stage fails |
| Pipeline.PrepareAndPublish | app/page.tsx:238-349 | after a connected wallet, prepares the selected moments; stops with `NoAccount` exactly when there is no account; otherwise behaves as `Publish` on the prepared moments |
| Pipeline.Process | app/page.tsx:228-349 | without a wallet it logs the install hint and calls nothing; a failed wallet request leaves the moments untouched; it stops for a missing account, for a low balance, or at the first rejected await; it completes exactly when the balance covers the fee and no call of the run rejects, ending with the final handle line |

## Left out

- React rendering, the `Home` component and its state (lines 351 onward), and `setInfo`. The run's messages are modelled as a list of `Line` values. Their Chinese wording, the HTML in them and the `console.log`/`console.warn` output are not modelled.
- Loading the archive and the blacklist from JSON files with `require`. The archive's moments, its account (or `null`) and the blacklist are parameters.
- The browser and the network: `window.ethereum`, the chain parameters of `wallet_addEthereumChain`, the contract client, `fetch` and IPFS. A `World` value answers every external call. The JSON the chain receives is not modelled.
- `Promise.all` over the image uploads runs concurrently in the source. It is modelled as one call that rejects when any upload rejects. The order in which the uploads finish is not modelled; the resulting map does not depend on it.
- `Buffer.toString("base64")`, the MD5 digest and `JSON.stringify(...).length` are function parameters. Only `LocalPathInjective` assumes anything of them: that the encoding is injective. Every `JSON.stringify` result is at least `[]`, so the length is assumed to be at least 2.
- `formatEther` turns both sides of the balance check into floating-point CSB. The model compares exact integers in wei, which gives the same verdict unless the floats round.
- `new Date(+publish_time).toISOString()`: a note's publish date is the publish time itself. A non-numeric `publish_time`, which yields `NaN` in the sort and an invalid date, is not modelled; publish times are integers.
- The link post's HTML template is not modelled. The note records the content, URL, title, description and image the template is filled with.
- Moments.SortByTime: stated as sorted and a permutation. It is a stable insertion sort like `Array.prototype.sort`, but stability is not stated.
- Pipeline.Process: when the wallet is not connected, the ghost results `fee` and `run` carry no meaning. Its contract states only the outcome, the calls, the log and the untouched moments.
- The placeholder account at lines 120-131 is unreachable in the source, as described above, so it is not modelled.

The fee check uses a rough plan, built with the character id 123456 and an empty image map. That plan can call for more batches than are posted. `PlannedCountNotTight` shows a case: two notes and a large payload give a plan of 8 batches of one note, but only 2 batches are posted. So the code does not guarantee `(batchCount - 1) * batchSize < n`, and the model follows the code. The proved facts are `EstimateBatch`'s bounds and `CallsWithinPlan` (slices posted ≤ batchCount).
