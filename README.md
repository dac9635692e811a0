# Session registry, auth guard and place normalisation — a Dafny model

This project models two pieces of in-process logic of a location-lookup backend.

- **The session registry and the auth guard** (`service/credential.py`). The Redis hash `"user"` maps
  session tokens to user ids. `register_token` writes an entry and `delete_token` removes one.
  `is_valid_token` tests whether a token is a key. `create_access_token` builds the JWT claims.
  `get_current_user` is the guard run on each request: the token must decode, its `sub` claim must be
  non-null, the token must be registered and the user must exist. Any failure raises the same 401 (assuming the user lookup returns None for a missing user; see "## Left out").
- **Place normalisation and the survey update** (`router/mapfind.py`). Raw places from the maps API
  become `Place` and `PlaceDetail` values: the type comes from `primaryType` or else `types[0]`, is
  mapped through `match_place_types`, and `open_now` defaults to false. `survey_place` adds to a stored
  place's `safe_rating` or overwrites its `sleep_available`. It answers 404 for an unknown place and
  400 for an unknown survey type.

Files:

- `wrappers.dfy`: `Option` and `Result`.
- `credential.dfy` (module `CredentialService`): class `Credential`, whose field `sessions` is the
  `"user"` hash; the claims of `create_access_token`; and `GetCurrentUser`. JWT verification is an
  oracle `decode: Token -> Option<Claims>`, and the user table is an oracle `findUser`. The clock is a
  parameter.
- `mapfind.dfy` (module `MapFind`): API payload datatypes, the type table, per-place normalisation,
  `Scan` and the detail view. Class `PlaceTable`, whose field `records` is the place table, carries
  `GetOrCreate`, `GetPlaceDetail` and `SurveyPlace`.

Python exceptions raised while a response is built (`KeyError`, `IndexError`) are `Failure` values.
The 401 of the guard and the 404/400 of the survey route are explicit values.

Time is whole seconds since the epoch. An absent `types` list is treated like an empty one, because
both make `types[0]` raise.

## Model

| member | source | states |
|---|---|---|
| `CredentialService.AccessTokenClaims` | service/credential.py:43-46 | the claims hold every key of the input plus `exp`; `exp` is now + delta, replacing any earlier `exp`; every other key keeps its value |
| `CredentialService.Subject` | service/credential.py:81 | a present `sub` claim is returned as it is; an absent claim reads as null |
| `CredentialService.GetCurrentUser` | service/credential.py:67-91 | returns a user iff the token decodes, `sub` is non-null, the token is registered and the user with id `sub` exists; the user returned is the one looked up by `sub`; every failure is the same 401 carrying `WWW-Authenticate: Bearer` |
| `CredentialService.TokenStageFailureSkipsStoreAndUsers` | service/credential.py:77-85 | a token that fails to decode or has no `sub` is rejected with the 401, whatever the session table and the user table hold |
| `CredentialService.UnregisteredTokenSkipsUsers` | service/credential.py:86-88 | an unregistered token is rejected before the user lookup, whatever the user table holds |
| `CredentialService.StoredUserIdNotConsulted` | service/credential.py:59-60 | the guard's outcome does not depend on the user id stored for the token, only on whether the token is a key |
| `CredentialService.IssuedAndRegisteredTokenAuthenticates` | service/credential.py:43-53 | a token signed over `create_access_token`'s claims with a subject, registered, and accepted by the decoder, authenticates the subject's user |
| `CredentialService.DeletedTokenRejected` | service/credential.py:56-60 | once a token is deleted from the table, the guard rejects it with the 401 even if it still decodes |
| `CredentialService.Credential.constructor` | service/credential.py:29-30 | a new handle sees the shared hash as it is |
| `CredentialService.Credential.RegisterToken` | service/credential.py:52-54 | afterwards the table maps the token to the user id; an existing entry is overwritten; no other entry changes; the only exception is a token equal to the hash key `"user"` with a non-positive `expire`, which deletes the whole table |
| `CredentialService.Credential.DeleteToken` | service/credential.py:56-57 | afterwards the token is absent, every other entry is unchanged, and deleting an absent token changes nothing |
| `CredentialService.Credential.IsValidToken` | service/credential.py:59-60 | true iff the token is a key of the table |
| `CredentialService.SessionLifecycle` | service/credential.py:52-60 | valid right after registering, invalid after deleting; a second delete changes nothing; other tokens keep their entries; the token `"user"` with a non-positive `expire` is never valid and leaves an empty table |
| `MapFind.MatchPlaceType` | router/mapfind.py:25-30 | `doctor` maps to `hospital`; `hospital`, `subway_station` and `school` map to themselves; every other key has no mapping |
| `MapFind.MatchPlaceTypeIdempotent` | router/mapfind.py:25-30 | mapping a reported type again gives the same type |
| `MapFind.PlaceTypeKey` | router/mapfind.py:63-67 | the key is `primaryType` when that is present and non-empty, otherwise `types[0]`; none when the list is empty |
| `MapFind.PlaceType` | router/mapfind.py:63-67 | the type is defined iff the key exists and is in the table; it is then one of `hospital`, `subway_station`, `school`; an empty type list and an unmapped key are distinct faults, the latter naming the key |
| `MapFind.DoctorReportedAsHospital` | router/mapfind.py:29 | a place whose primary type is `doctor` is reported as `hospital` |
| `MapFind.ScanOpenNow` | router/mapfind.py:72-76 | `open_now` is `currentOpeningHours.openNow` when that object is present and non-empty, otherwise false |
| `MapFind.DetailOpenNow` | router/mapfind.py:119-123 | `open_now` is the first `currentSecondaryOpeningHours` entry's `openNow` when the list is present and non-empty, otherwise false |
| `MapFind.NormalisePlace` | router/mapfind.py:59-77 | a place normalises iff its type does; the Place keeps the id, name and coordinates, and carries the mapped type and the scan's `open_now` |
| `MapFind.Scan` | router/mapfind.py:59-79 | succeeds iff every place normalises; then exactly one Place per input, in input order, with the same id and coordinates; otherwise the fault of the first failing place |
| `MapFind.PlaceDetailView` | router/mapfind.py:105-125 | succeeds iff the type maps and a phone number is present; the type fault comes before the missing-phone fault; the detail carries the payload's id, name, coordinates and map URI, the mapped type, the phone number, the detail `open_now`, and the stored row's `safe_rating` and `sleep_available` |
| `MapFind.ScanAndDetailAgreeOnType` | router/mapfind.py:63-67 | scan and the detail view report the same type for the same payload |
| `MapFind.ApplySurvey` | router/mapfind.py:146-154 | a `safe_rating` survey adds its value to `safe_rating`; a `sleep_available` survey sets `sleep_available`; no other field changes; any other type is rejected |
| `MapFind.ReplayAccumulatesSafeRating` | router/mapfind.py:146-147 | over a series of survey requests, `safe_rating` grows by the sum of the `safe_rating` values and the display name never changes |
| `MapFind.ReplayAppend` | router/mapfind.py:145-155 | each further request applies its survey to the row left by the earlier ones; a rejected one leaves the row as it was |
| `MapFind.ReplayKeepsLastSleepValue` | router/mapfind.py:148-149 | over a series of survey requests, `sleep_available` ends as the value of the last `sleep_available` survey |
| `MapFind.PlaceTable.constructor` | router/mapfind.py:95-101 | the table starts as it stands, with the column defaults that a row created by `get_or_create` receives |
| `MapFind.PlaceTable.NewRecord` | router/mapfind.py:95-101 | a created row has the payload's display name and the column defaults |
| `MapFind.PlaceTable.GetOrCreate` | router/mapfind.py:95-101 | returns the stored row unchanged, or creates, stores and returns a new row |
| `MapFind.PlaceTable.GetPlaceDetail` | router/mapfind.py:91-133 | the row exists afterwards even when building the response fails; the response is the detail view of the payload and that row |
| `MapFind.PlaceTable.SurveyPlace` | router/mapfind.py:139-159 | unknown place: 404 and nothing changes; unknown survey type: 400 and nothing is saved; otherwise 200 and only that place's row is replaced by the surveyed row |

## Left out

- JWT signing and verification (HS256) are a foreign library. `jwt.decode` is the oracle `decode`, which also decides expiry. `jwt.encode` appears only as a parameter of `IssuedAndRegisteredTokenAuthenticates`.
- `CredentialService.Credential.RegisterToken`: no time-to-live is modelled. `expire(token, expire)` at service/credential.py:54 sets a TTL on a top-level key named by the token, not on the `"user"` hash field, so hash entries never expire through it, and sessions end only through `delete_token`. The exception is a token equal to `"user"`: the TTL then names the session hash itself. The model covers a non-positive TTL, which deletes the hash at once. A positive TTL on the whole hash, which would empty the table later, is not modelled, since the model has no clock for the store. Tokens issued by `create_access_token` are JWT compact strings, which always contain `.`, so they never equal `"user"`.
- `CredentialService.AccessTokenClaims`: `exp` is whole seconds; the sub-second truncation done by the JWT library is not modelled.
- The Redis connection (`get_redis_pool`, `RedisConn`), its failures and its async calls are left out. The model is sequential.
- Password hashing (`verify_password`, `get_password_hash`) wraps passlib/bcrypt. `get_password_hash` is also broken as written (a `@staticmethod` that takes `cls`).
- `CredentialService.GetCurrentUser`: assumes `DatabaseUser.get(id=...)` returns None for a missing user, as the check at service/credential.py:89-90 expects. If `DatabaseUser` is a Tortoise model (as the place table is), `get` raises `DoesNotExist` instead; line 88 is outside the `try`, so a registered, decodable token whose user was deleted would end in an unhandled error rather than the 401. `database/user.py` is not part of this model, so the model follows the None check.
- The user table (`database/user.py`) is not part of this model. It is reached through the lookup oracle `findUser`. That the returned user's id equals `sub` is the ORM's promise, not stated here.
- No login route is in the modelled files. `IssuedAndRegisteredTokenAuthenticates` composes claim construction, registration and the guard without claiming an order between signing and registering.
- FastAPI routing, `Depends`/`Security`, `HTTPBearer` header parsing, `JSONResponse` and `cbv` are framework plumbing. The guard starts from the bearer token itself.
- Calls to the maps API (`GmapClient`) are left out. Their payloads are inputs.
- `MapFind.PlaceDetailView`: photo URLs are left out. `create_url` (utils/string.py) is not part of this model, and neither is the `GOOGLE_API_KEY` lookup.
- `MapFind.PlaceDetailView`: `PlaceSleepType(...)` validation of the stored `sleep_available` is not modelled; the stored integer is passed through.
- The Pydantic models (`interface/place.py`) are not part of this model. `open_now` is carried as an optional boolean: it is None when the hours object has no `openNow`. Whether `Place` accepts None is not modelled.
- Fields the code reads with `[]` are assumed present in the payload: `id`, `displayName.text`, `location` and `googleMapsUri` of a place, the `places` list of a nearby search (router/mapfind.py:78) and the `photos` list of a photo response (router/mapfind.py:131). A missing one raises a `KeyError`. The maps API omits empty repeated fields, so in the source a nearby search with no results, or a place without photos, raises, whereas `MapFind.Scan` of an empty list succeeds and `MapFind.PlaceDetailView` ignores photos. `internationalPhoneNumber` is optional because the API omits it for places without a phone.
- `MapFind.PlaceTable.GetOrCreate`: the row is filed under the path's place id. `place_id` is passed both in `defaults` (the payload's id) and as the lookup keyword (the path's id), so how Tortoise combines the two decides every creation; that library code is not part of this model. The column defaults (`database/place.py`) are constructor parameters.
- `PlaceSurvey` (`interface/place.py`) is not part of this model. `survey_value` is taken to be an integer.
