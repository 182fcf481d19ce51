# support_helper sync server: a verified model of its decision core

The sync server is a small REST service. It stores *scenarios* and *profiles* as JSON files on disk and
guards every endpoint except the health check behind a static bearer-token role map. This project models
the part of `server/server.py` that decides each outcome:

- **The authorization guard** (`Auth`). `_parse_bearer` strips the header and splits it at the first space.
  It accepts a scheme word that lower-cases to `bearer` and returns the rest, which may hold further spaces.
  `get_role` maps a missing header to 401, a malformed one to 401 and an unknown token to 403; otherwise it
  returns the mapped role. `require_editor` runs `get_role` first and then demands the role `"editor"` exactly.
  The string primitives it uses are in `Text`: Python's `str.strip()` with Python's whitespace set,
  `str.split(" ", 1)`, and lower-casing.
- **The error formatter** (`Http.HandleHttpException`). A dict detail becomes the body verbatim. Any other
  detail becomes `{"message": str(detail)}`. The status code is kept.
- **Path derivation** (`Paths`). Scenario files are named `{id}_v{version}.json` and profile files `{id}.json`.
  The scenario naming is not injective. The model proves the example collision, and proves that two different
  keys can collide only when `_v` occurs inside one of the ids and inside one of the versions.
- **The resource store** (`Store`). Each data directory is a map from file name to content. The content is a
  parsed document or an unparseable file. Writes replace the whole file and deletes remove one file. The metadata
  listing runs a loop that projects `{id, version, updatedAt, name}` (or `{id, updatedAt}`) from each file and
  skips files that are missing, unparseable, not objects, or lacking a required member.
- **The handlers** (`Server.SyncServer`). The eight scenario and profile endpoints are methods over the two
  directories. A read handler runs `get_role` first; a write handler runs `require_editor` first. A failed guard
  returns its error and leaves both directories unchanged.

The store is keyed by the derived file name, not by the `(id, version)` pair. Two colliding keys therefore
share one file, exactly as on disk (`Server.CollidingUpsertOverwrites`).

Two facts about the code that a reader might not expect:
- The scenario file name is not injective, and the code does not check ids or versions before deriving it.
  A key shares its file with a different key exactly when its own id or version contains `_v`
  (`Paths.SeparatorGivesCollision`, `Paths.CollidingKeyHasSeparator`). So the derivation is injective on keys
  whose ids (or whose versions) never contain `_v` (`Paths.ScenarioFileNameInjective`).
- A PUT body that is not JSON makes `await request.json()` raise an exception that is not an `HTTPException`.
  The handler therefore ends in an unhandled error, which the framework answers with 500, not 400. The model
  gives this case the outcome `Unhandled`. The same outcome covers a direct GET of a file that does not parse.

## Model

| member | source | states |
|---|---|---|
| `Text.Strip` | server/server.py:100 | the result is the input without leading and trailing whitespace (Python's isspace set); it is empty exactly when the input is all whitespace, and otherwise neither begins nor ends with whitespace |
| `Text.StripPadded` | server/server.py:100 | stripping whitespace padding around a core whose ends are not whitespace returns exactly the core |
| `Text.SplitOnce` | server/server.py:100 | split(" ", 1): one part equal to the input when the separator is absent, otherwise a separator-free first part, the separator, and the whole remainder |
| `Auth.BearerSchemeCaseInsensitive` | server/server.py:101 | the scheme is accepted exactly when each of its six letters is the lower- or upper-case letter of "bearer"; an accepted scheme holds no whitespace |
| `Auth.SplitFindsScheme` | server/server.py:100-101 | the split yields two parts with an accepted scheme exactly when the stripped header is the scheme, one space and a rest; the token is then exactly that rest |
| `Auth.ParseBearer` | server/server.py:98-103 | succeeds exactly for a stripped header of the form scheme + " " + rest, returns that rest, and fails only with 401 "Invalid Authorization header. Expected: Bearer <token>" |
| `Auth.ParsedTokenShape` | server/server.py:100-103 | an accepted token is never empty and never ends in whitespace |
| `Auth.ParseBearerPadded` | server/server.py:98-103 | "Bearer " + token, with any scheme casing and whitespace padding, parses to exactly the token, spaces inside it included |
| `Auth.GetRole` | server/server.py:106-114 | a missing header gives 401 "Authorization header required"; a malformed one gives the parser's 401; a well-formed header succeeds exactly when its token is in the map, with the mapped role, and otherwise gives 403 "Unknown token" |
| `Auth.MissingHeaderAlwaysUnauthorized` | server/server.py:106-109 | a missing header gives 401 whatever the token map; with an empty map every request is refused |
| `Auth.RoleComesFromTokenMap` | server/server.py:110-114 | a granted role is the one the token map assigns to some token |
| `Auth.GuardStatus` | server/server.py:98-114 | every guard failure is 401 or 403; 401 exactly when the header is missing or malformed; 403 exactly for "Unknown token" |
| `Auth.BearerHeaderRole` | server/server.py:98-114 | a padded "Bearer <token>" header resolves to the token's role when the map holds the token, and to 403 "Unknown token" otherwise |
| `Auth.RequireEditor` | server/server.py:117-121 | succeeds exactly when get_role yields "editor"; passes get_role's failure through unchanged; any other role gives 403 "Editor role required" |
| `Auth.NonEditorRoleRefused` | server/server.py:117-121 | a recognised role other than "editor" ("viewer", "Editor") is refused with 403 "Editor role required" |
| `Http.HandleHttpException` | server/server.py:132-139 | keeps the status; a dict detail is the body verbatim; any other detail becomes {"message": its text}; the body is always an object |
| `Http.DetailShapesRenderAlike` | server/server.py:132-139 | a detail {"message": m} and a bare text m render to the same response |
| `Paths.ScenarioFileName` | server/server.py:147-149 | the derived name ends in ".json", so the listing's glob matches it, and its length is that of id and version plus seven |
| `Paths.ProfileFileName` | server/server.py:152-153 | the derived name ends in ".json" and is five characters longer than the id |
| `Paths.ProfileFileNameInjective` | server/server.py:152-153 | distinct profile ids never share a file |
| `Paths.ScenarioFileNamesCollide` | server/server.py:147-149 | the keys ("a_v1", "2") and ("a", "1_v2") differ but share one file name |
| `Paths.CollisionNeedsSeparator` | server/server.py:147-149 | two different scenario keys with one file name have different ids, "_v" inside one of the ids and "_v" inside one of the versions |
| `Paths.SameLengthIdsAgree` | server/server.py:147-149 | two scenario keys with ids of equal length share a file name only when they are the same key |
| `Paths.SeparatorGivesCollision` | server/server.py:147-149 | a key whose id or version contains "_v" shares its file name with a different key |
| `Paths.CollidingKeyHasSeparator` | server/server.py:147-149 | a key that shares its file name with a different key has "_v" in its own id or version |
| `Paths.ScenarioFileNameInjective` | server/server.py:147-149 | when neither id (or neither version) contains "_v", equal file names mean equal keys |
| `Store.Lookup` | server/server.py:156-158 | reading a file finds Missing exactly when it is absent, and the stored document exactly when it parses |
| `Store.Written` | server/server.py:161-164 | after a write the file reads as the whole new document; every other file reads as before |
| `Store.Removed` | server/server.py:264 | after removal the file is missing, every other file reads as before, and the directory has one file fewer when the file was there |
| `Store.Project` | server/server.py:206-213 | a record exists exactly for an object having every required member; the record has exactly the projected members, each equal to the document's |
| `Store.ScenarioNameDefaultsToId` | server/server.py:211 | a listed scenario's name is its "name" member, or its id when it has none |
| `Store.CollectMetadata` | server/server.py:202-217 | the loop's result is the listing of the enumerated files: one record per file that yields one, in enumeration order |
| `Store.ListingBound` | server/server.py:203-216 | the listing is never longer than the enumeration |
| `Store.ListingComplete` | server/server.py:203-216 | every enumerated file that yields a record has that record listed |
| `Store.ListingSound` | server/server.py:203-216 | every listed record is the record of some enumerated file |
| `Store.ListingWithinDirectory` | server/server.py:203 | over the glob enumeration the listing has no more records than the directory has files |
| `Store.WrittenDocumentIsListed` | server/server.py:203-213 | a document just written under a ".json" name, having the required members, appears in every later enumeration's listing |
| `Store.ListingSkipsCorruptFile` | server/server.py:204-216 | with one well-formed and one unparseable file the listing is exactly the well-formed file's record, in either order |
| `Server.Served` | server/server.py:227-233 | a get finds 404 for an absent file, the document for a parseable one, and an unhandled error for an unparseable one |
| `Server.SyncServer.ListScenarios` | server/server.py:194-217 | over the glob's enumeration: the guard's error when get_role fails, otherwise the scenario listing as a JSON array, with no more records than stored files |
| `Server.SyncServer.GetScenario` | server/server.py:220-233 | the guard's error when get_role fails; otherwise 404 "Scenario not found: {id} v{version}" or the stored document; the store is only read |
| `Server.SyncServer.UpsertScenario` | server/server.py:236-248 | a failed require_editor returns its error and changes nothing; an invalid body changes nothing; otherwise {"ok": true}, the one file replaced by the body, and profiles untouched |
| `Server.SyncServer.DeleteScenario` | server/server.py:251-266 | a failed require_editor changes nothing; an absent file gives 404 and changes nothing; otherwise {"ok": true} with only that file removed |
| `Server.SyncServer.ListProfiles` | server/server.py:274-294 | over the glob's enumeration: the guard's error when get_role fails, otherwise the profile listing of {id, updatedAt} records, with no more records than stored files |
| `Server.SyncServer.GetProfile` | server/server.py:297-309 | the guard's error when get_role fails; otherwise 404 "Profile not found: {id}" or the stored document |
| `Server.SyncServer.UpsertProfile` | server/server.py:312-323 | as for scenarios: a failed guard or invalid body changes nothing; otherwise the one profile file is replaced and scenarios are untouched |
| `Server.SyncServer.DeleteProfile` | server/server.py:326-340 | a failed guard changes nothing; an absent file gives 404 and changes nothing; otherwise only that file is removed |
| `Server.UpsertThenGetScenario` | server/server.py:236-248 | an editor's upsert then a get of the same key returns that body; every other scenario file reads as before |
| `Server.DeleteScenarioTwice` | server/server.py:251-266 | deleting a stored scenario twice gives ok, then 404 "Scenario not found: {id} v{version}"; only that scenario file is removed and the profiles are unchanged |
| `Server.DeleteProfileTwice` | server/server.py:326-340 | deleting a stored profile twice gives ok, then 404 "Profile not found: {id}"; only that profile file is removed and the scenarios are unchanged |
| `Server.ViewerCannotUpsert` | server/server.py:117-121 | a non-editor role can get a scenario, but its PUT is refused with 403 "Editor role required" and both directories are unchanged |
| `Server.UpsertedScenarioIsListed` | server/server.py:194-248 | a scenario upserted with the required members appears in the next listing |
| `Server.GuardErrorKinds` | server/server.py:106-121 | get_role fails only with the missing-header, invalid-header or unknown-token error; require_editor adds only "Editor role required" |
| `Server.RaisedErrorsAreMessages` | server/server.py:124-139 | every error the handlers raise (the guards' failures and both not-found errors) has detail exactly {"message": text} and reaches the client as that body, with status 401 or 403 for the guards and 404 for not-found |
| `Server.CollidingUpsertOverwrites` | server/server.py:147-149 | an upsert at ("a_v1", "2") is what a get of ("a", "1_v2") then returns |

## Left out

- Token loading (`_load_tokens`, server/server.py:59-70). It is file I/O plus a string coercion. The token map is an immutable parameter of the server object.
- The health check and `/api/me` (server/server.py:172-186). They have no decision beyond `get_role`.
- Filesystem calls (`exists`, `open`, `mkdir`, `unlink`, `glob`) and JSON (de)serialisation. A directory is a map from file name to "parses to this document" or "does not parse". A written document reads back unchanged. A body the encoder rejects is outside the model: a Dafny `char` cannot hold a lone surrogate such as `"\ud800"`, which `json.loads` accepts but `json.dump(..., ensure_ascii=False)` into a UTF-8 file cannot write. The source then fails half-way, after the old file has been emptied, and leaves an unparseable file.
- The directory prefix of a path. Ids are not validated, so an id holding a path separator writes outside the data directory. The model treats file names as a flat namespace.
- Glob enumeration order. It is unspecified; the listing takes the order as an input sequence. `Store.Enumerates` states what the glob guarantees: each ".json" name exactly once.
- The rendering of an `Unhandled` outcome. The framework turns it into a 500 response, which is not the `{"message": ...}` shape. This covers a body that is not JSON and a direct get of an unparseable file.
- The framework's check of return values against the handlers' annotations (`list[dict[str, str]]`, `dict[str, Any]`). The check runs after the handler returns. A listed record with non-string members, or a stored document that is not an object, would be refused there; the model returns what the handler returns.
- Diagnostic printing and logging. They do not affect any response.
- Concurrent requests. The code has no coordination beyond the filesystem; the model runs one handler at a time.
- JSON numbers are integers in the model. JSON floats are not modelled.
- Text.AsciiLower: lower-cases ASCII letters only, unlike Python's Unicode `str.lower()`. The source compares the result with "bearer", and no non-ASCII character lower-cases to one of those letters, so the accepted schemes are the same.
- Http.HandleHttpException: a non-dict detail is carried as the text `str()` gives it. `str()` itself is not modelled for non-string values; every raise in the server uses a dict.
