# CreativeShowcase persistence gateway, modelled in Dafny

CreativeShowcase is a client-side gallery: users sign up, log in by username, upload artworks and
browse each other's profiles. Users and artworks are persisted through one object, `storage` in
`services/storage.ts`. It keeps them as two ordered collections under two separate keys of the
browser's local store (`cs_users` and `cs_artworks`). The login session is written separately, by
App.tsx, under a third key (`cs_auth`), and is not part of this model. When a key holds nothing, reads fall back to fixed
seed data: two users (vincent, frida) and five artworks (a1 to a5).

This project models that gateway:

- `types.dfy`, module `Types`: the `User` and `Artwork` records, with optional fields as `Option`.
- `casefold.dfy`, module `CaseFold`: `Lower`, the case folding used by both username comparisons.
- `seqs.dfy`, module `Seqs`: `Filter`, which models `Array.filter`. It comes with lemmas that it
  keeps order (`FilterAppend`, `FilterIsSubsequence`) and keeps every occurrence of what it
  keeps (`FilterCount`).
- `storage.dfy`, module `Storage`:
  - the seed data;
  - the queries as pure functions over a list (`FindUser`, `ArtworksByUser`,
    `ArtworksByUsername`, `ReplaceById`) and the lemmas that relate them;
  - the class `Store`. Its two fields `users` and `artworks` are the two keys, and `None`
    means the key is empty. Its functions `GetUsers`, `GetArtworks`, `FindUserByUsername`,
    `GetArtworksByUser` and `GetArtworksByUsername` read the current state. They apply the
    functions above to `GetUsers()` or `GetArtworks()`, so their meaning is stated on those
    functions. Its methods `SaveUser`, `SaveArtwork` and `UpdateArtwork` read the current list,
    change it and write it back, and they change only the field of their own key.

Three behaviours of the code worth noting:

- The seed artworks are listed oldest first: their `createdAt` values increase from a1 to a5.
  So a fresh gallery is not "newest first" by timestamp. Only the insertion order is newest
  first, because `saveArtwork` puts each new artwork in front (`AfterSavesNewestFirst`).
- `updateArtwork` replaces every artwork with the matching id, not just one.
- `updateArtwork` always writes the list back. When no id matches, the visible list is
  unchanged, but an empty key then holds a copy of the seeds.

## Model

| member | source | states |
|---|---|---|
| `Storage.DefaultUsers` | services/storage.ts:8-11 | the seed users are exactly vincent (id "1", "Vincent van Gogh") and frida (id "2", "Frida Kahlo"), whose usernames differ even after case folding |
| `Storage.DefaultArtworks` | services/storage.ts:13-59 | the seed artworks are exactly five, with ids a1..a5 in that order; each was created before load time, none has a critique, and they are ordered oldest first |
| `Storage.SeedArtworksOwnedBySeedUsers` | services/storage.ts:8-59 | every seed artwork's owner id and copied username belong to the same seed user |
| `Storage.Store.constructor` | services/storage.ts:4-5 | a gateway starts from whatever the two separate keys hold at load time |
| `Storage.Store.GetUsers` | services/storage.ts:62-65 | returns the stored users unchanged, or exactly the seed users when the users key is empty |
| `Storage.Store.GetArtworks` | services/storage.ts:77-80 | returns the stored artworks unchanged, or exactly the five seed artworks when the artworks key is empty |
| `Storage.Store.SaveUser` | services/storage.ts:67-71 | the stored users become the previous list plus the new user at the end, so the length grows by exactly one and duplicates are accepted; the artworks key is untouched; every username that already resolved still resolves to the same earlier user; the new user's own username resolves |
| `CaseFold.Lower` | services/storage.ts:74 | keeps the length, folds each character independently, and leaves no upper-case ASCII letter |
| `Storage.FirstMatch` | services/storage.ts:74 | the index where the scan of `find` stops: no user before it matches, and the user at it matches unless it is the end of the list |
| `Storage.FindUser` | services/storage.ts:73-75 | (read through `Store.FindUserByUsername`) returns nothing exactly when no username matches the query up to case; otherwise it returns a matching user with no matching user before it |
| `Storage.FindUserCaseInsensitive` | services/storage.ts:73-75 | two queries with the same folded form find the same user |
| `Storage.FindUserAfterAppend` | services/storage.ts:67-75 | after a user is appended, a lookup that already found a user still finds that one; otherwise it finds the new user exactly when its username matches |
| `Storage.SeedLookupIgnoresCase` | services/storage.ts:73-75 | on the seed users, "Vincent" finds vincent and "FRIDA" finds frida |
| `Seqs.Filter` | services/storage.ts:83 | the result is no longer than the input; it holds only elements of the input that pass the test, and every input element that passes is in it |
| `Seqs.FilterAppend` | services/storage.ts:83 | filtering a concatenation is the concatenation of the filtered parts, so relative order is kept |
| `Storage.ArtworksByUser` | services/storage.ts:82-84 | (read through `Store.GetArtworksByUser`) the result holds only artworks of the list owned by exactly this id, and each such artwork is in it |
| `Storage.ArtworksByUserExact` | services/storage.ts:82-84 | the result is a subsequence of the list, and it holds each owned artwork as often as the list does and no other artwork |
| `Storage.ArtworksByUsername` | services/storage.ts:86-88 | (read through `Store.GetArtworksByUsername`) the result holds only artworks whose stored username matches the name up to case, and each such artwork is in it |
| `Storage.ArtworksByUsernameExact` | services/storage.ts:86-88 | the result is a subsequence of the list, and it holds each matching artwork as often as the list does and no other artwork |
| `Storage.ArtworksByUsernameCaseInsensitive` | services/storage.ts:86-88 | two names with the same folded form select the same artworks |
| `Storage.Store.SaveArtwork` | services/storage.ts:90-94 | the stored artworks become the new artwork followed by the previous list; the users key is untouched; the owner's list gains the artwork at its head, and every other owner's list is unchanged |
| `Storage.AfterSavesNewestFirst` | services/storage.ts:90-94 | after any sequence of saves, the list is the saved artworks in reverse order of saving, followed by the list from before |
| `Storage.SavedArtworkHeadsOwnerList` | services/storage.ts:82-94 | a newly saved artwork comes first in its owner's list, both by owner id and by username, followed by the owner's older artworks in their order |
| `Storage.ReplaceById` | services/storage.ts:97 | the list keeps its length and the id at every index; every artwork with the updated id becomes the update, and every other artwork stays at its index |
| `Storage.ReplaceByIdAbsent` | services/storage.ts:96-99 | an update whose id is in no artwork leaves the list equal to what it was |
| `Storage.ReplaceByIdIdempotent` | services/storage.ts:96-99 | applying the same update twice gives the same list as applying it once |
| `Storage.Store.UpdateArtwork` | services/storage.ts:96-99 | the stored artworks become the previous list with every id match replaced, and they are written back even when nothing matched; the users key is untouched; with no match, the visible list is unchanged |

## Left out

- Local-storage reads and writes and the JSON encoding (services/storage.ts:63-64, 70, 78-79, 93, 98). The model assumes the encoding loses nothing. A key is modelled as empty (`None`) or holding a list. A stored empty string would also read as empty, but the encoder never writes one. A corrupt stored value makes the source throw, and that case is not modelled.
- `Date.now()` in the seeds (services/storage.ts:21, 30, 39, 48, 57). The five readings, taken one after another while the module initialises, are modelled as one reading, `Store.loadTime`, and each seed counts back from it.
- CaseFold.Lower: folds only the ASCII letters A to Z. JavaScript's `toLowerCase` also folds other Unicode letters, so two non-ASCII names that the source treats as equal may differ in the model.
- Seed arrays changed in place: when a key is empty, `push` (services/storage.ts:69) and `unshift` (services/storage.ts:92) modify the seed array itself before `setItem` stores it. The model keeps the seeds constant. The change is visible whenever a later read finds the key empty: after a failed `setItem` (below), or after the key is cleared outside the gateway. Such reads return the modified seed array.
- Store.SaveUser: `setItem` (services/storage.ts:70) may throw, for instance when the storage quota is exceeded. The model's save always succeeds. After a failed save on an empty key, the source keeps the users key empty, and later reads still show the new user through the modified seed array.
- Store.SaveArtwork: `setItem` (services/storage.ts:93) may throw when the storage quota is exceeded. This is likely, because `imageUrl` holds an inlined data URL (App.tsx:166, 185), and the caller only logs the error (App.tsx:190-194). The model's save always succeeds. After a failed save on an empty key, the source keeps the artworks key empty, and later reads still show the "failed" upload at the front of the modified seed array.
- Store.UpdateArtwork: `setItem` (services/storage.ts:98) may throw in the same way. The model's update always succeeds. In the source a failed update leaves the key as it was, because `map` builds a new array.
- Overlapping read-modify-write from concurrent tabs (a lost update) is not modelled. The model is single-threaded.
- `Store.FindUserByUsername`, `Store.GetArtworksByUser` and `Store.GetArtworksByUsername` have no contracts of their own. Each applies `FindUser`, `ArtworksByUser` or `ArtworksByUsername` to the current list, and the contract is on that function.
- Session state and the `AuthState` record (App.tsx, types.ts): login and logout just replace the whole record, and the session is not part of the gateway.
- services/gemini.ts is not modelled: it is a wrapper around an external network client, and its only logic is the fallback strings.
- Random ids, the random shuffle of the landing page, and every page and component: these are App.tsx, components/Layout.tsx and components/MasonryGrid.tsx, which are presentation only.
