# RankIO handle claiming and document converters, in Dafny

This project models two parts of RankIO, a movie-review site:

- **The username form** (`pages/login.tsx`). A signed-in user picks a handle. The form keeps three pieces of state: `username`, `isValid` and `loading`. Three events change them:
  - an edit of the input. The value is lowercased, then either taken or ignored, depending on its length and on the handle pattern.
  - the completion of a debounced lookup of the handle in the `usernames` collection.
  - the submission. One write batch stores the default profile under `users/<uid>` and the reservation `{uid}` under `usernames/<handle>`.

  The submit button is enabled exactly when `isValid` holds. Its label reflects the state.
- **The converters** (`lib/models.ts`). These map between the application's `User`, `Review` and `Movie` records and two outside shapes: stored document bodies, and external movie metadata.

Modules:

- `Wrappers`: `Option`.
- `Decimal`: how a template literal renders an integer. It also has a parser, so rendering can be proved injective.
- `Username`: the handle pattern `^(?=[a-zA-Z0-9._]{3,25}$)(?!.*[_.]{2})[^_.].*[^_.]$`, modelled three ways:
  - `RegexTest` follows the pattern piece by piece, including the regex wildcard, which excludes line terminators.
  - `UsernameRule` states the same condition plainly.
  - `CheckPattern` decides it with one scan.

  The module also holds ASCII lowercasing.
- `Models`: the records, the stored shapes and the converters. The metadata object is a class, because `movieFromJSON` overwrites its `original_title`.
- `Login`: the store as two maps (`Db`), the write batch as a sequence of writes applied in order, and the `UsernameForm` class with one method per event.

The store invariant `Linked` says that profiles and reservations point at each other. It implies that no two profiles hold the same handle. A first submission of a free handle keeps the store linked. The commit itself reads nothing, so submitting a handle another uid holds silently replaces that reservation; `SubmitOverwritesTakenHandle` proves this.

## Model

| member | source | states |
|---|---|---|
| `Username.RegexTest` | pages/login.tsx:123 | `re.test` of the pattern. An accepted string has 3 to 25 characters and no separator at either end. |
| `Username.RegexTestIsRule` | pages/login.tsx:123 | The pattern accepts a string if and only if it has 3 to 25 characters from `[a-zA-Z0-9._]`, neither its first nor its last character is `.` or `_`, and no two adjacent characters are both separators. |
| `Username.CheckPattern` | pages/login.tsx:123 | The single-scan checker returns true exactly when the pattern accepts the string. |
| `Username.AcceptedLengthAndAlphabet` | pages/login.tsx:123 | Every accepted handle has length 3 to 25, and all its characters are in `[a-zA-Z0-9._]`. |
| `Username.RejectsSeparatorAtEnds` | pages/login.tsx:123 | A string starting or ending with `.` or `_` is rejected. |
| `Username.RejectsSeparatorPair` | pages/login.tsx:123 | A string with two adjacent separators is rejected. |
| `Username.RejectsShort` | pages/login.tsx:126-132 | A string shorter than three characters is never accepted, so the two branches of `onChange` never both fire. |
| `Username.AcceptsExample` | pages/login.tsx:123 | "valid.name1" is accepted. |
| `Username.RejectsShortAndForeignExamples` | pages/login.tsx:123 | "ab" (too short) and "in--valid" (`-` is outside the alphabet) are rejected. |
| `Username.RejectsSeparatorExamples` | pages/login.tsx:123 | "a..b", "a._b", ".abc" and "abc_" are rejected. |
| `Username.ToLower` | pages/login.tsx:122 | Lowercasing keeps the length and maps each character through ASCII lowercasing. |
| `Username.ToLowerNoUpper` | pages/login.tsx:122 | A lowercased string contains no upper-case ASCII letter. |
| `Username.ToLowerIdempotent` | pages/login.tsx:122 | Lowercasing twice is the same as lowercasing once. |
| `Username.ToLowerKeepsRule` | pages/login.tsx:122-123 | Under ASCII lowercasing, a raw input is accepted by the pattern if and only if its lowercase form is. This does not hold for JavaScript's Unicode `toLowerCase`: U+212A KELVIN SIGN lowercases to `k`. |
| `Login.UsernameForm.constructor` | pages/login.tsx:76-78 | The form starts with an empty handle, neither valid nor loading, and satisfies the form invariant. |
| `Login.UsernameForm.OnChange` | pages/login.tsx:117-137 | For a lowercased value shorter than 3: the value is stored, and loading and isValid become false. For a value the pattern accepts: it is stored, loading becomes true and isValid false. Otherwise all three fields are unchanged. The stored handle stays lowercase and either short or well formed. A value that is taken restores the full invariant, even after a stale lookup. |
| `Login.UsernameForm.CheckUsername` | pages/login.tsx:141-150 | A candidate shorter than 3 causes no read and no state change. Otherwise exactly one read of `usernames/<candidate>` is issued, isValid becomes "the document does not exist", and loading becomes false. The handle is unchanged. When the lookup is for the current handle, the form invariant is kept. |
| `Login.UsernameForm.SubmitDisabled` | pages/login.tsx:177 | The button is disabled exactly when its label is not CHOOSE, that is, when isValid is false. |
| `Login.UsernameForm.ButtonLabel` | pages/login.tsx:184-188 | The label is CHOOSE if and only if the form is valid, LOOKING UP... if and only if it is not valid but loading, and USERNAME NOT AVAILABLE if and only if it is neither. |
| `Login.UsernameForm.OnSubmit` | pages/login.tsx:82-115 | The store afterwards is the old store with the two-write submission batch applied. `users/<uid>` then reads back as the default user, and `usernames/<handle>` holds the uid. |
| `Login.NewUser` | pages/login.tsx:92-110 | The default profile carries the provider's uid and the chosen handle, and it reads back unchanged when stored under that uid. |
| `Login.SubmitBatch` | pages/login.tsx:111-112 | The batch holds exactly two writes. The first is the profile under the uid, holding the handle. The second is the reservation `{uid}` under the handle. |
| `Login.GetUsername` | pages/login.tsx:144 | The lookup of `usernames/<name>` returns a snapshot keyed by the name, which exists exactly when the handle is reserved. |
| `Login.Firestore.Commit` | pages/login.tsx:114 | Committing applies the batch's writes in order to the store. |
| `Login.SubmitWritesTwoDocuments` | pages/login.tsx:86-112 | A submission changes exactly two keys. `users/<uid>` gets the handle, the provider's name and photo, the tier-list display with tiers Unwatchable, Awful, Bad, Good, Great, Excellent and Masterpiece, and an empty bio. `usernames/<handle>` gets the uid. |
| `Login.SubmittedProfileReadsBack` | pages/login.tsx:92-112 | After a submission, reading `users/<uid>` yields the default user with that uid, and `usernames/<handle>` holds that uid. |
| `Login.LinkedHandlesUnique` | pages/login.tsx:86-112 | In a store where profiles and reservations point at each other, two profiles with the same handle are the same profile. |
| `Login.SubmitKeepsLinked` | pages/login.tsx:82-115 | A submission by a uid without a profile, for a handle nobody holds, keeps profiles and reservations linked. |
| `Login.SubmitOverwritesTakenHandle` | pages/login.tsx:82-115 | A submission for a handle another uid holds replaces that reservation and breaks the link, because the commit does not re-check. |
| `Decimal.RenderNat` | lib/models.ts:42 | The rendering of a natural number is a non-empty string of digits, with a leading zero only for 0. |
| `Decimal.RenderInt` | lib/models.ts:42 | The template-literal rendering of an integer is never empty. Its inverse is proved in `ParseRenderInt`. |
| `Decimal.ParseRenderNat` | lib/models.ts:42 | Parsing the digits of a natural number gives back the number. |
| `Decimal.ParseRenderInt` | lib/models.ts:42 | Parsing the rendering of an integer (minus sign and digits) gives back the integer. |
| `Decimal.RenderIntInjective` | lib/models.ts:42 | Distinct integers render to distinct strings. |
| `Models.RenderId` | lib/models.ts:42 | A string id passes through unchanged. A numeric id is rendered in decimal. |
| `Models.RenderNumberIdInjective` | lib/models.ts:42 | Distinct numeric movie ids give distinct `Movie.id` strings. |
| `Models.ResolveTitle` | lib/models.ts:44-45 | For language "en" the title is the original title; for any other language it is the localised title. |
| `Models.ResolveTitleStable` | lib/models.ts:44-45 | Resolving again, after the original title was overwritten with the result, gives the same title. |
| `Models.MovieFromJson` | lib/models.ts:40-47 | The movie's id is the rendered input id, its image is the input image, and its title is the resolved title. The input's original title is overwritten with the resolved title, and no other input field changes. |
| `Models.UserFromFirestore` | lib/models.ts:49-60 | The result is None exactly when the document does not exist. Otherwise the uid is the document's key. |
| `Models.UserToFirestore` | lib/models.ts:62-70 | The stored body carries the user's handle and bio. Its full content is covered by the two lemmas below. |
| `Models.UserRoundTrip` | lib/models.ts:49-70 | Reading back a document with key `u.uid` and body `userToFirestore(u)` yields `u`. |
| `Models.UserDataRoundTrip` | lib/models.ts:49-70 | Writing back a user read from an existing document yields the same body. |
| `Models.UserToFirestoreForgetsOnlyUid` | lib/models.ts:62-70 | Two users have the same stored body if and only if they differ at most in their uid. |
| `Models.CreatedAtMillis` | lib/models.ts:84 | The creation time is the stored timestamp's milliseconds when present, and 0 when absent. |
| `Models.ReviewFromFirestore` | lib/models.ts:72-86 | The review's id and its movie's id are both the document's key, and createdAt is the stored milliseconds or 0. |
| `Models.ReviewToFirestore` | lib/models.ts:88-97 | The stored body carries no creation timestamp. |
| `Models.ReviewRoundTrip` | lib/models.ts:72-97 | A review written and read back under a key keeps its movie title and image, rating, text and author. Its id and movie id become the key, and createdAt becomes 0. |
| `Models.ReviewDataRoundTrip` | lib/models.ts:72-97 | Writing back a review read from a document yields the stored body without its timestamp. |
| `Models.ReviewToFirestoreKeepsFive` | lib/models.ts:88-97 | Two reviews are stored alike if and only if they agree on movie title, movie image, rating, text and author. |
| `Models.ReviewRoundTripStable` | lib/models.ts:72-97 | Once a review has been written and read back, doing so again under the same key changes nothing. |

## Left out

- Firebase calls (`getDoc`, `writeBatch`, `commit`, `signInWithPopup`) are outside code. A read is a map lookup (`GetUser`, `GetUsername`), and a commit applies the whole batch at once.
- Transport errors and failed commits belong to the store and are not modelled. So are rejected lookups, which the code does not handle either.
- The code performs no conditional "create only if absent" at commit time, so the model has none. `SubmitOverwritesTakenHandle` states what follows from that.
- The 500 ms debounce and out-of-order completion of lookups are timers and concurrency. The model covers the effect of one completed lookup.
- Login.UsernameForm.CheckUsername: the candidate is a parameter. The result is promised to keep the form invariant only when the candidate is the current handle. A stale lookup that completes after a later edit can mark a short handle as available. `OnChange` still accepts that state, and the next edit that is taken repairs it.
- Login.UsernameForm.OnSubmit: with an empty handle, which only a stale lookup can make submittable, the model writes `usernames/""`. In the store's client library, `doc(db, "usernames", "")` fails before any batch is built (`pages/login.tsx:87`). That library check is not modelled.
- React plumbing is not modelled: `useEffect`, `useContext`, `useCallback`, the redirect of signed-in users, the JSX layout, and the button's icon and colour.
- `components/MovieCard.tsx` and `pages/_app.tsx` are presentation only.
- Username.ToLower: only ASCII letters are lowercased. JavaScript's full Unicode `toLowerCase` is not modelled.
- String lengths count Dafny characters, not UTF-16 code units as JavaScript does. The two differ only outside the Basic Multilingual Plane, and only in the shorter-than-three branch.
- Models.ReviewFromFirestore: it takes a document that exists, as its only caller (`pages/[username]/[reviewId].tsx:35-42`) passes a query result. For a missing document the source would fill author, title, image, rating and text with `undefined`, which the typed record cannot hold.
- Stored bodies are assumed to carry the declared fields. A review body without a `movie` map, which makes the source throw, is not modelled. Neither are fields of the wrong type.
- Models.CreatedAtMillis: timestamps are whole milliseconds. Fractional milliseconds from nanoseconds are not modelled.
- Models.RenderId: only integral numbers are rendered. JavaScript's rendering of fractions, exponents, `NaN` and infinities is not modelled. Ratings are integers.
- The provider's `displayName` and `photoURL` are always strings. The non-null assertions on them (`pages/login.tsx:95-96`) are not modelled.
- The `backdrop` of the metadata is kept on the payload object and dropped like the code drops it. `Movie` has no such field.
- Safeguards the code does not have are not modelled: a uniqueness re-check at commit, a generation counter that discards stale lookups, and an "indeterminate" state for a failed lookup.
