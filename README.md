# SNC blog backend: accounts, tokens, the about page and demo seeding

A Dafny model of the core of the SNC blog's FastAPI backend:

- `security.dfy` (module `Security`) covers password hashing and access tokens. The password is cut to its first 72 characters both when it is hashed and when it is verified. A token's claims get an `exp`, and a zero lifetime falls back to the configured default. Verifying a token turns every decoding error into `None`. bcrypt and python-jose are not modelled. Each is a record of functions the caller passes in. The properties the proofs take from them are predicates that the lemmas require:
  - `AcceptsOwnHashes`: bcrypt accepts every hash it made of the same input.
  - `DecodeContract`: jose decodes a token it signed back to its claims until `exp`, and reports expiry after it. This is stated only for `Signable` claims: JSON values (no `datetime` or ObjectId outside `exp`) and no registered claim jose checks (`iat`, `nbf`, `aud`, `iss`, `sub`, `jti`, `at_hash`). jose rejects or validates the others. The claims the handlers sign, `{id, username}` as strings, are `Signable`.
  - `RejectsOtherPasswords`: bcrypt accepts no hash of a different input. Only the first-run scenario in `auth.dfy` assumes it, to show that the old password stops working after a change. Real bcrypt only reads the first 72 bytes of its input, so two inputs that differ after their 72nd byte break this assumption.
- `auth.dfy` (module `Auth`) models the single-admin account flow: `check_setup`, `setup_admin`, `login` and `change_password`. They are methods of a class `AdminStore` holding the admins collection as a sequence in insertion order. `find_one` is the first match in that order.
- `about.dfy` (module `About`) models the about page. It is a class `AboutCollection` whose collection holds at most one document. That document is read with defaults and updated by a shallow `$set` merge or by per-section upserts. Each handler method is tied to a specification function (`AboutView`, `SectionView`, `MergeAbout`, `Upsert`). The lemmas state the round trips, the frame and the singleton invariant about those functions.
- `init_data.dfy` (modules `ServiceOrder`, `InitData`) models `init_demo_data`. Each collection is seeded from its module-level demo list only while it is empty. The dicts of that list are first stamped in place with the current time. The demo data is kept in its short fields, and its shape is proved: the sizes, distinct setting keys, the service ranking per category and that every service is active. The handler is a method over the collections and the demo arrays. It is proved against the function `Seed`, which is proved idempotent.
- `common.dfy` (module `Common`) holds `Option`, `Result`, the JSON-like `Value` stored in documents and claim sets, `HttpError` and the text form of an ObjectId.

The clock, bcrypt's random salt and the ObjectIds the database driver assigns are parameters of the operations that use them: `now`, `salt`, `newId` and `aboutId`. Instants are opaque integers in seconds.

## Model

| member | source | states |
|---|---|---|
| Security.Truncate | backend/app/core/security.py:13-18 | the input bcrypt sees is a prefix of the password, of length min(\|password\|, 72) |
| Security.TruncateEquivalence | backend/app/core/security.py:16-18 | two passwords give bcrypt the same input if and only if they are equal or share their first 72 characters |
| Security.GetPasswordHash | backend/app/core/security.py:16-18 | bcrypt hashes the password itself when it has at most 72 characters, and its first 72 characters otherwise |
| Security.VerifyPassword | backend/app/core/security.py:11-13 | the candidate reaches bcrypt cut exactly as `get_password_hash` cuts it (see `VerifyAcceptsOwnHash`, `SamePrefixSameHash`) |
| Security.ShortPasswordUnchanged | backend/app/core/security.py:18 | a password of at most 72 characters is hashed unchanged |
| Security.SamePrefixSameHash | backend/app/core/security.py:11-18 | passwords sharing their first 72 characters hash alike (same salt) and verify alike against any hash |
| Security.VerifyAcceptsOwnHash | backend/app/core/security.py:11-18 | if bcrypt accepts its own hashes, `verify_password(p, get_password_hash(p))` holds for every p, also longer than 72 |
| Security.ExpiryOf | backend/app/core/security.py:24-27 | `exp` is now + delta for a non-zero delta; for no delta or a zero one it is now + the configured minutes |
| Security.AccessClaims | backend/app/core/security.py:23-29 | the signed claims are `data` with `exp` added or overwritten; every other key keeps its value |
| Security.CreateAccessToken | backend/app/core/security.py:21-31 | signed with the configured secret and algorithm only: decoded with them at any instant, the token gives `data` plus its integer `exp` until `exp` and the expiry error afterwards (for `Signable` data, under `DecodeContract`) |
| Security.VerifyToken | backend/app/core/security.py:34-40 | `None` exactly when decoding with the configured secret and algorithm fails, else the decoded payload |
| Security.TokenRoundTrip | backend/app/core/security.py:21-40 | a token created from `Signable` data verifies under the same settings to `data` plus its integer `exp` until `exp`, and to `None` after it |
| Auth.FindFirst | backend/app/routers/auth.py:68 | `find_one` finds the first matching record; none is found exactly when no record matches |
| Auth.IdentityClaims | backend/app/routers/auth.py:53 | a token's claims are exactly `id` and `username`, as strings, so jose signs and returns them unchanged |
| Auth.AdminStore.CheckSetup | backend/app/routers/auth.py:20-25 | `needsSetup` holds exactly when there is no admin; nothing is changed |
| Auth.AdminStore.SetupAdmin | backend/app/routers/auth.py:28-59 | a non-empty table gives 400 "管理员账号已存在" and is unchanged; an empty one gets exactly one record (given username and email, hashed password, not first login, no creation time), and the response carries a token for the new id and username |
| Auth.AdminStore.Login | backend/app/routers/auth.py:62-89 | an unknown username and a wrong password both give the same 401; otherwise the token and the response carry the stored id, username and email; the table is not modified |
| Auth.AdminStore.ChangePassword | backend/app/routers/auth.py:92-128 | missing record → 404, then wrong current password → 400, then a new password shorter than 6 → 400, all leaving the table unchanged; the record found is the only one with that `_id`, so `update_one` updates that record; on success only its hash changes, to the hash of the new password |
| About.Section.Key | backend/app/routers/about.py:67-68 | no section key is `_id` or `updated_at` |
| About.DefaultAbout | backend/app/routers/about.py:17-26 | the skeleton has all four sections as empty lists, an empty mission title and content, an empty contact and no `_id` |
| About.AboutView | backend/app/routers/about.py:15-30 | with no document, the default skeleton; otherwise the stored document without `_id` |
| About.SectionView | backend/app/routers/about.py:65-69 | the stored section, or `[]` when there is no document or no such key |
| About.Upsert | backend/app/routers/about.py:80-84 | `update_one({}, {"$set": fields}, upsert=True)` either inserts exactly `fields` under the new `_id` or lays `fields` over the first document, keeping its other keys and the other documents (see `UpsertKeepsSingleton`, `SectionUpsertFrame`) |
| About.MergeAbout | backend/app/routers/about.py:41-52 | the stamped payload is inserted, with the new `_id` when it has none, or laid over the stored document, whose other keys are kept; it fails only with the `_id`-change error (see `MergeThenView`, `MergeFailsOnlyOnIdChange`) |
| About.SectionFields | backend/app/routers/about.py:82 | a section setter writes exactly its own key and `updated_at` |
| About.AboutCollection.GetAbout | backend/app/routers/about.py:10-30 | returns `AboutView` of the stored documents |
| About.AboutCollection.UpdateAbout | backend/app/routers/about.py:33-58 | the collection becomes `MergeAbout` of the old one and stays a singleton; returns the stored document without `_id`, or the error when the payload would change `_id` |
| About.AboutCollection.GetSection | backend/app/routers/about.py:61-69 | returns `SectionView` of the stored documents for that section |
| About.AboutCollection.UpdateSection | backend/app/routers/about.py:72-86 | upserts the section and `updated_at` with filter `{}`, keeps the singleton, and returns its input |
| About.UpsertKeepsSingleton | backend/app/routers/about.py:80-84 | a section upsert never makes the collection hold a second document |
| About.MergeKeepsSingleton | backend/app/routers/about.py:44-52 | `update_about` inserts only into an empty collection, so it stays a singleton |
| About.SectionRoundTrip | backend/app/routers/about.py:93-114 | after a section setter, its getter returns exactly the list that was set |
| About.SectionUpsertFrame | backend/app/routers/about.py:80-84 | a section setter changes only its key and `updated_at`; every other stored key keeps its value |
| About.SectionSettersIndependent | backend/app/routers/about.py:80-84 | a section setter leaves what every other section getter returns unchanged |
| About.MergeThenView | backend/app/routers/about.py:41-58 | after `update_about`, the document read back is the old one with the stamped payload laid over it, without `_id` |
| About.MergeFailsOnlyOnIdChange | backend/app/routers/about.py:46-50 | `update_about` fails exactly when a document exists and the payload's `_id` differs from the stored one |
| About.MergeThenSection | backend/app/routers/about.py:41-52 | a section written through `update_about` is what its getter then returns |
| InitData.Service | backend/app/core/init_data.py:295-435 | every demo service record carries its category, its rank and `active = true` |
| InitData.DemoListSizes | backend/app/core/init_data.py:10-611 | the demo lists hold 6 blogs, 15 services, 5 events and 6 settings |
| InitData.DemoAboutShape | backend/app/core/init_data.py:504-600 | the demo about document has all four sections as lists of 4, 5, 4 and 4 entries and no `_id` |
| InitData.DemoSettingsKeysDistinct | backend/app/core/init_data.py:604-611 | the demo settings' keys are pairwise distinct |
| InitData.LearningPlatformsRanked | backend/app/core/init_data.py:296-331 | the learning-platform services are ranked 1..4 in list order |
| InitData.CampusServicesRanked | backend/app/core/init_data.py:333-368 | the campus services are ranked 1..4 in list order |
| InitData.DevelopmentToolsRanked | backend/app/core/init_data.py:370-405 | the development-tool services are ranked 1..4 in list order |
| InitData.LearningResourcesRanked | backend/app/core/init_data.py:407-435 | the learning-resource services are ranked 1..3 in list order |
| InitData.DemoServicesRanked | backend/app/core/init_data.py:295-435 | in every category the `order` values of the demo services are exactly 1..n in list order, with no gap or repeat |
| InitData.DemoServicesActive | backend/app/core/init_data.py:295-435 | every demo service is active |
| InitData.Stamp | backend/app/core/init_data.py:621-623 | a stamped dict gains the stamp keys set to `now` and keeps every other key |
| InitData.StampAll | backend/app/core/init_data.py:621-623 | every dict of a list is stamped, and the list keeps its length |
| InitData.StampInPlace | backend/app/core/init_data.py:621-623 | the stamping loop leaves the array equal to `StampAll` of its old contents |
| InitData.SeededAbout | backend/app/core/init_data.py:652-658 | the seeded about document is the demo one plus `updated_at = now` and its new `_id` |
| InitData.SeedOne | backend/app/core/init_data.py:619-624 | an empty collection becomes the stamped demo list, which the demo list itself also becomes; a non-empty one and its demo list are unchanged |
| InitData.SeedList | backend/app/core/init_data.py:619-624 | one count-stamp-insert step computes `SeedOne` |
| InitData.Seed | backend/app/core/init_data.py:614-659 | each collection is decided by its own emptiness alone; blogs get `created_at` and `updated_at`, services and events `created_at`, settings and about `updated_at` |
| InitData.SeedIdempotent | backend/app/core/init_data.py:614-659 | running `init_demo_data` a second time, at any instant, changes nothing |
| InitData.SeedCounts | backend/app/core/init_data.py:614-659 | seeding an empty database yields 6 blogs, 15 services, 5 events, 6 settings and 1 about document |
| InitData.SeedKeepsAboutSingleton | backend/app/core/init_data.py:651-658 | seeding keeps the about collection a singleton |
| InitData.Database.InitDemoData | backend/app/core/init_data.py:614-659 | the collections and the demo lists after the call are `Seed` of those before it |

## Left out

- backend/app/core/database.py (the Motor client and `get_database`) is not part of this model. The collections are fields of the classes.
- frontend/src/main.ts (the Vue bootstrap, routes and client-side guard) is not part of this model.
- The internals of bcrypt (passlib) and python-jose are not modelled: no hashing, signature checking or constant-time comparison. `TokenRoundTrip` and `VerifyAcceptsOwnHash` hold only under the library properties they require.
- Security.Truncate: truncates by characters, as the code does (`password[:72]`). The comment beside it speaks of 72 bytes, which the code does not do. With `bcrypt__truncate_error=True`, passlib raises for a password whose first 72 characters take more than 72 bytes of UTF-8. Encodings are not modelled, so that error is not modelled either.
- A stored hash that bcrypt cannot parse makes passlib raise, not return false. The `verify` function given to the model is total, so that case is not modelled.
- Clock reads: every handler takes one `now`, though the source reads the clock once per stamped field, so the `created_at` and `updated_at` of a blog may differ by microseconds in the source.
- Concurrency: handlers run atomically one after another. The race between counting admins and inserting in `setup_admin` is not modelled.
- FastAPI and pydantic plumbing is not modelled: HTTP transport, schema validation of `AdminCreate`/`AdminLogin`, and the `get_current_user` dependency. The authenticated admin's id is an input.
- Auth.AdminStore.ChangePassword: requires its id to be 24 lower-case hexadecimal digits. Ids are compared as text, and the id comes from a token the server issued, which holds `str(ObjectId)` and is always lower case. The model therefore does not capture two cases: an upper-case id that bson parses to the same ObjectId, and the error `ObjectId(...)` raises on text that is not 24 hexadecimal digits. `SetupAdmin` likewise requires the new id in that form, so every stored id can be passed to `ChangePassword`.
- Security.TokenRoundTrip: holds only for `Signable` claims. jose refuses to encode a `datetime` or an ObjectId outside the registered time claims, and it validates `aud`, `nbf` and the other registered claims when decoding. The handlers sign only `Signable` claims.
- `update_about` writes `updated_at` into the caller's own dict before storing it. The model's payload is a value, so that aliasing is not modelled.
- A `$set` whose payload changes `_id` makes MongoDB reject the write. The handler does not catch it, so the client sees a 500; the model returns that error. Dotted and `$`-prefixed keys in the payload are treated as plain keys.
- The `_id` values that `insert_many` adds to the collections, and to the module-level demo dicts, are not modelled. Only `insert_one` of the about document and of a new admin carries an `_id`.
- The Markdown bodies and excerpts of the demo blogs, the long descriptions of the demo events and the import-time `date` fields are not modelled. The counts, keys, categories and ranks are.
- The success messages printed by `init_demo_data` are console output and are not modelled.
