# Posts layer of the posts app, modelled in Dafny

This project models the posts layer of a React Native app: a store that holds
a list of posts with a loading flag and an error message, a client for the
public KeyVal key-value service that saves and loads those posts, and the five
mutation flows (create, update, delete, sync, save) that tie the two together.

The network, the clock and `Math.random` are abstracted away:

- Every `fetch` is an `HttpReply` input. It is either a response with its `ok`
  flag, its HTTP status and what `response.json()` gave, or the message of a
  thrown network error.
- What a request sends comes back as a `Request` value. It holds the shortened
  key and the payload.
- The JSON text of a payload is the `Payload` constructor applied to the
  projected posts. What `JSON.parse` makes of a returned value is an
  `Option` input.
- Post ids, timestamps, the random key number and the random hash suffix are
  parameters. `convertServerToPostFormat` reads the clock once per post, so a
  loaded list takes a `clock: nat -> string`, and post `i` is stamped with
  `clock(i)`.
- The device store (MMKV) is a `LocalStore` object with a `map<string, string>`
  field.

Modules:

- `Wrappers`: `Option` (null / value) and `Result` (value / thrown message).
- `JsRuntime`: the JavaScript semantics the hash relies on. This covers
  ToInt32 (what `<<` and `&` do), strings as UTF-16 code units (`length`,
  `charCodeAt`), `Number.prototype.toString(radix)` and `padStart`.
- `PostsStore`: `Post`, `PostForServer`, `PostsState`, the two projections,
  and the class `PostsStore`. Its eight actions update `posts`, `isLoading`
  and `error` in place.
- `LocalStorage`: the `MMKVStore` wrapper and the `KEY_POSTS` entry name.
- `KeyValService`: `createHash` as a loop proved against the recurrence
  `h := ToInt32(31*h + c)`, `getShortKey`, the outcome rules of
  `setKey`/`getKey`, the key formats, and `savePosts`, `loadPosts`,
  `savePost`, `loadPost`, `deletePost`.
- `PostsMutations`: the `mutationFn` bodies as methods over the store and the
  local store. They take the render-time `posts` snapshot and the remote
  outcome as inputs. The ghost result `pending` is the state observers see
  while the remote call is in flight: loading on, error cleared, local
  change already applied.

Behaviours the model keeps as written:

- A failed push never rolls back the local change.
- Create pushes the render-time snapshot, which lacks the post it just added.
  `PostsMutations.TwoCreatesFromOneSnapshot` shows two creates from one render
  keeping both posts locally while pushing the same stale list twice.
- Update pushes the snapshot's copy of the post, with its old title and
  content, under a random key. Delete writes to a key made from the post id,
  so it never clears what update wrote except by chance.
- `savePosts` records the key locally whenever `setKey` returns, even when the
  status is not `SUCCESS`.
- `loadPosts` never throws. A failed read therefore makes sync empty the
  local list and leave the error clear.
- `loadPost` reads the key it is given without the `dnt03012001_` prefix
  that `savePost` adds.
- `deletePost` in the store removes every post with the id, not only the
  first one.
- `addPost` reads the clock twice, once per timestamp, so the model does not
  claim `createdAt == updatedAt` for a new post.
- The save key is `dnt` followed by the drawn number padded to at least four
  digits, so it carries four to six digits.

## Model

| member | source | states |
|---|---|---|
| `PostsStore.ToServerFormat` | src/stores/PostsStore.ts:46-52 | the projection keeps id, title and content and drops both timestamps |
| `PostsStore.FromServerFormat` | src/stores/PostsStore.ts:54-63 | a rebuilt post keeps id, title and content and gets one clock reading as both createdAt and updatedAt |
| `PostsStore.ServerRoundTrip` | src/stores/PostsStore.ts:46-63 | projecting a rebuilt post gives back the server record exactly |
| `PostsStore.PostRoundTrip` | src/stores/PostsStore.ts:46-63 | projecting then rebuilding a post keeps id, title and content and replaces only the timestamps |
| `PostsStore.ToServerAll` | src/services/KeyValService.ts:112 | the projected list has the same length, and each entry is the projection of the post at the same index |
| `PostsStore.FromServerAll` | src/services/KeyValService.ts:138 | the rebuilt list keeps the server order and stamps post i with the i-th clock reading |
| `PostsStore.ServerListRoundTrip` | src/services/KeyValService.ts:137-138 | projecting a loaded list gives back the server records in order, whatever the clock read |
| `PostsStore.FirstIndexOf` | src/stores/PostsStore.ts:87 | the result is the first index whose post has the id; none exactly when no post has it |
| `PostsStore.FindById` | src/hooks/usePostsMutations.ts:87 | a found post is the one at the first index carrying the id; nothing is found exactly when no post has the id |
| `PostsStore.WithUpdate` | src/stores/PostsStore.ts:85-92 | length, every id and every createdAt are kept; only the first post with the id changes, and it gets the new title, content and updatedAt; an absent id changes nothing |
| `PostsStore.Without` | src/stores/PostsStore.ts:99 | the filtered list is never longer than the original |
| `PostsStore.WithoutMembers` | src/stores/PostsStore.ts:99 | a post stays exactly when it was present and has another id |
| `PostsStore.WithoutAppend` | src/stores/PostsStore.ts:99 | removal distributes over concatenation, so the remaining posts keep their relative order |
| `PostsStore.WithoutAbsent` | src/stores/PostsStore.ts:97-102 | removing an id that no post carries leaves the list unchanged |
| `PostsStore.WithoutIdempotent` | src/stores/PostsStore.ts:97-102 | deleting the same id twice gives the same list as deleting it once |
| `PostsStore.PostsStore.constructor` | src/stores/PostsStore.ts:67-70 | the initial state is no posts, not loading, no error |
| `PostsStore.PostsStore.AddPost` | src/stores/PostsStore.ts:71-83 | exactly one post with the given fields is appended after the unchanged old posts; error is cleared; isLoading is untouched |
| `PostsStore.PostsStore.UpdatePost` | src/stores/PostsStore.ts:85-95 | posts become `WithUpdate` of the old posts, so an absent id leaves them unchanged; error is cleared either way; isLoading is untouched |
| `PostsStore.PostsStore.DeletePost` | src/stores/PostsStore.ts:97-102 | posts become the old posts without any post of that id; error is cleared; isLoading is untouched |
| `PostsStore.PostsStore.SetLoading` | src/stores/PostsStore.ts:104-108 | only isLoading changes |
| `PostsStore.PostsStore.SetError` | src/stores/PostsStore.ts:110-114 | only error changes |
| `PostsStore.PostsStore.ClearError` | src/stores/PostsStore.ts:116-120 | only error changes, to none |
| `PostsStore.PostsStore.SyncPosts` | src/stores/PostsStore.ts:122-127 | posts become exactly the given list; error is cleared; isLoading is untouched |
| `PostsStore.PostsStore.ClearPosts` | src/stores/PostsStore.ts:129-134 | posts become empty; error is cleared; isLoading is untouched |
| `LocalStorage.LocalStore.Set` | src/storages/mmkv.ts:11-13 | one entry is overwritten and no other changes |
| `LocalStorage.LocalStore.Get` | src/storages/mmkv.ts:14-17 | the stored value if the name has one, null otherwise |
| `LocalStorage.LocalStore.Remove` | src/storages/mmkv.ts:18-20 | only that entry is dropped |
| `JsRuntime.ToInt32` | src/services/KeyValService.ts:27-28 | the result is a 32-bit signed value that differs from the input by a multiple of 2^32 |
| `JsRuntime.ToInt32Congruent` | src/services/KeyValService.ts:27-28 | inputs equal modulo 2^32 wrap to the same 32-bit value |
| `JsRuntime.Utf16` | src/services/KeyValService.ts:25-26 | a string has at least as many code units as characters, each in [0, 0x10000) |
| `JsRuntime.Utf16OfBmp` | src/services/KeyValService.ts:25-26 | a string of BMP characters has one code unit per character, equal to the character's code |
| `JsRuntime.Utf16Append` | src/services/KeyValService.ts:38 | the code units of a concatenation are the concatenated code units |
| `JsRuntime.ToRadix` | src/services/KeyValService.ts:30 | `toString(radix)` is non-empty, uses only digits below the radix, all in the BMP, and has no leading zero |
| `JsRuntime.RadixRoundTrip` | src/services/KeyValService.ts:30 | reading back the digits `toString(radix)` wrote gives the number again |
| `JsRuntime.ToRadixLength` | src/services/KeyValService.ts:30 | a number below radix^k has at most k digits |
| `JsRuntime.FromRadixLeadingZeros` | src/services/KeyValService.ts:115 | zeros added in front by padding do not change the value read back |
| `JsRuntime.PadStartBmp` | src/services/KeyValService.ts:115 | padding a BMP string with a BMP character keeps it in the BMP |
| `JsRuntime.PadStart` | src/services/KeyValService.ts:115 | the result is the string prefixed by fill characters up to the width, and is never shorter than the string |
| `KeyValService.HashStep` | src/services/KeyValService.ts:27-28 | one step always yields a 32-bit signed value, and equals `31*h + c` whenever that fits in 32 bits |
| `KeyValService.Abs` | src/services/KeyValService.ts:30 | `Math.abs` yields a non-negative value equal to the input or its negation |
| `KeyValService.HashOf` | src/services/KeyValService.ts:24-29 | the accumulated hash always fits in 32 signed bits |
| `KeyValService.ShiftFormIsHashStep` | src/services/KeyValService.ts:27-28 | `(h << 5) - h + c` followed by `& itself` equals `ToInt32(31*h + c)` |
| `KeyValService.CreateHash` | src/services/KeyValService.ts:23-31 | the loop over the code units returns base 36 of the absolute value of the recurrence's result |
| `KeyValService.Hash` | src/services/KeyValService.ts:30 | the hash string is 1 to 6 lower-case base-36 digits, one code unit each |
| `KeyValService.GetShortKey` | src/services/KeyValService.ts:37-42 | a key is returned unchanged exactly when it has at most 20 code units; a longer one becomes its hash; the result never exceeds 20 code units |
| `KeyValService.GetShortKeyIdempotent` | src/services/KeyValService.ts:37-42 | shortening twice equals shortening once |
| `KeyValService.SetKeyOutcome` | src/services/KeyValService.ts:61-79 | setKey succeeds exactly on an ok response with a readable body whose status is not the too-long sentinel; that body is returned unchanged, whatever its status; every failure message starts "Failed to set key: " |
| `KeyValService.SetKeyHttpError` | src/services/KeyValService.ts:61-62 | a non-ok response fails with the HTTP status written in decimal after the two prefixes |
| `KeyValService.SetKeyTooLong` | src/services/KeyValService.ts:67-68 | an ok reply whose status is the too-long sentinel fails with "Failed to set key: " followed by the API's length message |
| `KeyValService.GetKeyOutcome` | src/services/KeyValService.ts:95-108 | getKey fails only on a network error, a non-ok response or an unreadable body; any body is returned unchanged; every failure message starts "Failed to get key: " |
| `KeyValService.SaveKey` | src/services/KeyValService.ts:115 | the posts key starts with `dnt` and has at least seven characters |
| `KeyValService.PostKey` | src/services/KeyValService.ts:153 | the single-post key is `dnt03012001_` followed by the suffix unchanged, twelve characters longer than it |
| `KeyValService.PaddedDigits` | src/services/KeyValService.ts:114-115 | the padded decimal form of 1..999999 has 4 to 6 digits that read back as the number |
| `KeyValService.SaveKeyUnshortened` | src/services/KeyValService.ts:114-117 | the save key of a drawn number has 7 to 9 characters and reaches setKey's request unshortened |
| `KeyValService.SaveKeyIsBmp` | src/services/KeyValService.ts:115 | every save key is made of BMP characters, one code unit each |
| `KeyValService.SaveKeyShape` | src/services/KeyValService.ts:114-115 | the save key starts with `dnt`, has 7 to 9 characters, is sent unshortened, and its digits read back as the number drawn |
| `KeyValService.SaveKeyInjective` | src/services/KeyValService.ts:114-115 | different drawn numbers give different save keys |
| `KeyValService.PostKeyLength` | src/services/KeyValService.ts:153 | a single-post key has 12 code units more than its suffix |
| `KeyValService.PostKeyShortening` | src/services/KeyValService.ts:180-183 | a single-post key is sent as is when its suffix has at most 8 code units, and as its hash otherwise |
| `KeyValService.SavePosts` | src/services/KeyValService.ts:111-120 | the projected list is sent under the save key; the result is setKey's outcome; the key is recorded locally exactly when setKey returned, and the local store is otherwise unchanged |
| `KeyValService.LoadPosts` | src/services/KeyValService.ts:122-147 | a non-empty explicit key wins over the stored key; with neither nothing is requested; the converted posts come back in server order only when the read succeeded with status SUCCESS and a non-empty value that parsed; every other outcome gives the empty list |
| `KeyValService.SavePost` | src/services/KeyValService.ts:149-157 | one projected post is sent under `dnt03012001_` plus the hash, shortened if needed; the result is setKey's outcome |
| `KeyValService.LoadPost` | src/services/KeyValService.ts:159-178 | an empty hash requests nothing; otherwise the given key itself is read; a post comes back exactly when the read delivered a value that parsed, stamped with one clock reading |
| `KeyValService.DeletePost` | src/services/KeyValService.ts:180-188 | the empty string is written under `dnt03012001_` plus the hash; true exactly when setKey returns, false on every setKey failure |
| `PostsMutations.CheckStatus` | src/hooks/usePostsMutations.ts:47-49 | success exactly when setKey returned status SUCCESS; a thrown setKey error keeps its message; any other status becomes the flow's own message |
| `PostsMutations.CreatePost` | src/hooks/usePostsMutations.ts:37-58 | the post is appended and kept whatever the outcome; the pushed list is the render-time snapshot; failure is setKey's error or "Failed to save posts to KeyVal" and is stored in error, success leaves error clear; loading is on with error clear while the push is pending and off at the end; the key record follows savePosts |
| `PostsMutations.UpdatePost` | src/hooks/usePostsMutations.ts:79-106 | the local update is kept; "Post not found" exactly when the id is absent from the snapshot, with no request; otherwise the snapshot's copy of the post is pushed and a non-SUCCESS status fails with "Failed to update post in KeyVal"; error and loading as in create |
| `PostsMutations.DeletePost` | src/hooks/usePostsMutations.ts:126-147 | the local removal is kept; the remote delete writes "" under the id's key; a false result fails with "Failed to delete post from KeyVal"; error and loading as in create |
| `PostsMutations.SyncPosts` | src/hooks/usePostsMutations.ts:167-184 | the list becomes exactly what loadPosts returns using the stored key; the flow never fails; a failed read empties the list and leaves the error clear; loading ends off |
| `PostsMutations.SavePosts` | src/hooks/usePostsMutations.ts:204-223 | the local list is untouched; the snapshot is pushed under the save key; failure as in create; error and loading as in create |
| `PostsMutations.TwoCreatesFromOneSnapshot` | src/hooks/usePostsMutations.ts:28-49 | two creates from one render keep both posts locally, in order, and both push the same pre-create list |
| `PostsMutations.SyncThenSave` | src/hooks/usePostsMutations.ts:173-175 | a save right after a sync that loaded records pushes exactly those records, in order |

## Left out

- Network I/O: `fetch`, `response.json()`, the base URL and `encodeURIComponent`. Each round trip is an input, and a request is recorded with its shortened key before URL encoding.
- `JSON.stringify` and `JSON.parse`, which are library routines. A payload's JSON text is the `Payload` constructor of the projected posts. A parsed value is an input: `None` when parsing throws, or when the result is not a list that can be mapped. Malformed records inside a parsed list are not modelled.
- `Math.random` and `new Date()`. Post ids, random key numbers, hash suffixes and clock readings are parameters. The range of `generateRandomHash` output is not modelled, and neither is any ordering of timestamps.
- `console.error` calls, and the react-query `onSuccess`/`onError` callbacks and cache invalidation.
- The `persist` middleware, which mirrors the store under `posts-storage`, and the JSON encoding `MMKVStore` wraps around stored values. Local entries hold the decoded strings.
- Subscriber notification and immer's structural sharing. The flows state the store's final state and the state while the remote call is pending, not every intermediate notification.
- Interleaving of concurrent flows. Each flow is one sequential method, and `TwoCreatesFromOneSnapshot` runs two creates back to back.
- The `'Unknown error'` fallback in the flows' catch blocks. Every value thrown on these paths is an `Error`.
- Characters outside the Basic Multilingual Plane are modelled as surrogate pairs. Lone surrogates inside a string are not, because a Dafny `char` cannot hold one.
- The UI screens, navigation, the random-user feature and `DemoStore`, which are outside the posts layer.
