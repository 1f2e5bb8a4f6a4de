# Cleaning-service backend: authentication and record rules in Dafny

This project models the logic that the `jeffastor_tutor` backend owns itself.
The framework wiring around it (FastAPI, fastapi-users, SQLAlchemy) is not part of the model.
There are five pieces, one Dafny module each, plus two shared modules:

- `PasswordPolicy` (`password_policy.dfy`) models `UserManager.validate_password`.
  The length must be 10 to 30. An empty deny list is checked next. Then a letter, a digit and a special character are required, in that order.
  The first rule that fails is the reason reported.
- `Backends` (`backends.dfy`) models the authentication-backend registry.
  `create_backend` pairs a cookie transport with a JWT strategy for `"access-token"` (coefficient 1) and for `"refresh-token"` (coefficient 10).
  `get_backend` looks a backend up by Python position or by name.
- `OriginStrategy` (`origin_strategy.dfy`) models `request_jwt_strategy.read_token`.
  It is a chain of guards over the decoded claims. The token is bound to the `[host, port]` of the client that presents it.
  The JWT library's decoding (signature, audience and expiry checks of RFC 7519) is a parameter that yields the claims, `Expired` or `Invalid`.
  The user manager's `parse_id` and `get` are partial-function parameters.
  The module also gives `write_token`'s claims.
  `request_jwt_strategy` is defined but not installed: `create_strategy` builds `jwt_strategy_class` (authentication.py:45-57), so the origin binding proved here is not in force for the `access-token` and `refresh-token` backends of the registry.
- `UserModel` (`user_model.dfy`) covers the `user` record.
  Names are 4 to 20 characters in the record and in the read, create and update schemas. The hashed password is capped at 1024 characters. Flags default to active, not superuser, not verified.
  The record's constructor calls `self.validate(self)`, and the model treats construction as validation of the whole record (see Left out).
- `CleaningModel` (`cleaning_model.dfy`) covers the cleaning schemas: the `cleaning_type` enumeration and its `spot_clean` default, which fields each schema requires, and the `condecimal(max_digits=10, decimal_places=2)` price.
  A price is a `Decimal` in its `as_tuple` form: sign, coefficient, exponent.
- `Engine` (`engine.dfy`) covers `is_test`, `get_test_url`, `get_engine_kwargs` and the URL part of `convert_async_to_sync`.
  `get_engine_kwargs` fills a local dictionary one key at a time, so it is an imperative method.
- `Wrappers` (`wrappers.dfy`) holds `Option` and `Result`. `Json` (`json.dfy`) holds decoded claim values and Python's `==` on them, where `True == 1`.

Behaviours of the code that its own tests, comments or declarations contradict (the model follows the code):

- `write_token` (jwt.py:66-67) adds no `request_origin` claim, so a token this strategy writes reads back as None (`WrittenTokenReadsAsNone`). The round trip "read(write(user)) is the user" does not hold here.
- No character-set rule exists for user names (user.py declares only the length). The name `"shakira@#$%^<>"` passes the model's name check (`RegistrationNameExamples`), although the registration test lists it among rejected inputs (tests/test_users.py:78-93).
- Cookies are never marked secure (`WellFormed` demands `!cookieSecure`). The comment at authentication.py:43 says this must be changed later.
- `is_test` (engine.py:13-14) treats any non-empty `TESTING`, including `"0"`, as test mode. The configuration module (core/config.py:12) reads the same variable with `cast=bool`, which parses `"0"` as false.
- `cleaning_update` (cleaning.py:29-30) declares `cleaning_type` optional, so an update whose `cleaning_type` is null passes the schema and stores None (`Parse`). The update tests (tests/test_cleanings.py:201 and 335) expect such an update to be rejected with status 422. The route handlers are not part of this model.
- `expire_refresh` is declared (jwt.py:22-23) but never raised. An expired token crashes the call instead; see Findings.

## Model

| member | source | states |
|---|---|---|
| `PasswordPolicy.Search` | backend/app/services/authentication/authentication.py:88-91 | The scan finds a match exactly when some character is an ASCII letter, a digit, or one of the 32 characters of the special class. |
| `PasswordPolicy.FirstWhere` | backend/app/services/authentication/authentication.py:107-117 | Returns the index of the first pattern whose search gives the wanted answer. All earlier patterns give the other answer. None means no pattern gives it. |
| `PasswordPolicy.Validate` | backend/app/services/authentication/authentication.py:95-117 | Too short iff below the minimum; too long iff at least the minimum and above the maximum. A too-short or too-long reason always carries the policy's own bound. Accepted iff in bounds, no denied class occurs and every needed class occurs. A forbidden reason names the first denied class that occurs. A missing reason names the first needed class that does not occur. |
| `PasswordPolicy.ShortRejected` | backend/app/services/authentication/authentication.py:98-101 | Every password under 10 characters is rejected as too short, whatever its content. |
| `PasswordPolicy.LongRejected` | backend/app/services/authentication/authentication.py:102-105 | Every password over 30 characters is rejected as too long. |
| `PasswordPolicy.AcceptedIff` | backend/app/services/authentication/authentication.py:86-117 | The `UserManager` policy accepts exactly the passwords of length 10 to 30 that contain a letter, a digit and a special character. |
| `PasswordPolicy.MissingNamesFirstAbsentClass` | backend/app/services/authentication/authentication.py:113-117 | For an in-bounds password, the missing-class reason is the letter if absent, else the digit if absent, else the special class if absent. Each case holds in both directions. |
| `PasswordPolicy.NeverForbidden` | backend/app/services/authentication/authentication.py:93-111 | The deny list is empty, so no password is rejected as forbidden. |
| `PasswordPolicy.ShortestTestPasswordAccepted` | backend/tests/test_users.py:43-47 | The 10-character `"chantaje@1"` is accepted. |
| `PasswordPolicy.LettersOnlyMissesDigit` | backend/app/services/authentication/authentication.py:113-117 | A letters-only password of valid length is reported as missing a digit, the first absent class in list order. |
| `Backends.ZipBackends` | backend/app/services/authentication/authentication.py:72-79 | The comprehension over `zip` yields one backend per pair, as many as the shorter list, in order. Each has its pair's name and lifetime, and its transport and strategy agree. |
| `Backends.CreateBackend` | backend/app/services/authentication/authentication.py:38-79 | Exactly two backends, `"access-token"` then `"refresh-token"`, with distinct names. In each, the cookie has the backend's name, a max-age equal to the strategy lifetime, and is httponly and not secure. The access lifetime is the configured base; the refresh lifetime is ten times it. |
| `Backends.FindByName` | backend/app/services/authentication/authentication.py:168-170 | Returns the position of the first backend with that name, or None exactly when no backend has it. |
| `Backends.GetBackend` | backend/app/services/authentication/authentication.py:164-172 | A position succeeds iff it lies in `-len..len-1`, else IndexError; a non-negative one returns that element. A name succeeds iff some backend has it, returning the first; otherwise KeyError carrying the name. |
| `Backends.NegativeIndexWraps` | backend/app/services/authentication/authentication.py:165-166 | A negative position `i - len` returns the same backend as `i`. |
| `Backends.RegistryLookups` | backend/app/services/authentication/authentication.py:164-172 | On the built registry, the default key 0 and the name `"access-token"` give the access backend. Position -1 and `"refresh-token"` give the refresh backend. Any other name is a KeyError and position 2 an IndexError. |
| `Backends.RefreshCookieOutlivesAccessCookie` | backend/app/services/authentication/authentication.py:70-79 | The two cookies have distinct names. The refresh cookie's max-age is ten times the access cookie's and, for a positive base, strictly longer. |
| `OriginStrategy.OriginMatchIff` | backend/app/services/authentication/jwt.py:53 | A claim equals `[client.host, client.port]` under Python `==` exactly when it is a two-element list of that host and a number equal to the port. |
| `OriginStrategy.ReadTokenAsWritten` | backend/app/services/authentication/jwt.py:32-64 | The source's guard chain, including its two runtime failures. A user is resolved iff there is a request and a token, decoding succeeds, the origin claim equals the client's address, and the user id claim parses to an existing user's id; that user is returned. |
| `OriginStrategy.ReadToken` | backend/app/services/authentication/jwt.py:32-64 | A user is resolved iff there is a request and a token, decoding succeeds, the origin claim equals the client's address, a user id claim is present, and it parses to an id of an existing user; that user is the one returned. Anything raised is an `invalid_request` signal or a missing-client error. |
| `OriginStrategy.MissingInputIgnoresDecoder` | backend/app/services/authentication/jwt.py:38-39 | Without a request or a token the result is None, and it is the same whatever the decoder would return. |
| `OriginStrategy.InvalidTokenGivesNone` | backend/app/services/authentication/jwt.py:41-48 | A decode failure other than expiry gives None, both as written and repaired. |
| `OriginStrategy.ExpiredRaisesExpireRefresh` | backend/app/services/authentication/jwt.py:41-50 | An expired token never yields a user. The repaired strategy raises `expire_refresh`. |
| `OriginStrategy.AsWrittenExpiredIsUnbound` | backend/app/services/authentication/jwt.py:45-50 | As written, an expired token ends in an UnboundLocalError on `data`. |
| `OriginStrategy.MissingOriginGivesNone` | backend/app/services/authentication/jwt.py:50-52 | Claims whose origin is missing or null give None. |
| `OriginStrategy.OriginMismatchRaisesDiffOrigin` | backend/app/services/authentication/jwt.py:53-54 | A present origin that differs from the client's raises `diff_origin`, an `invalid_request`, not None. |
| `OriginStrategy.ReplayFromOtherHostRejected` | backend/app/services/authentication/jwt.py:50-54 | A token carrying one client's origin, presented from another host, raises `diff_origin`. |
| `OriginStrategy.MissingUserIdGivesNone` | backend/app/services/authentication/jwt.py:56-58 | Origin matches but the `user_id` claim is missing or null: None. |
| `OriginStrategy.UnknownIdGivesNone` | backend/app/services/authentication/jwt.py:60-64 | Origin matches and an id is present, but it does not parse or names no user: the repaired strategy gives None. |
| `OriginStrategy.AsWrittenUnknownIdRaisesNameError` | backend/app/services/authentication/jwt.py:60-64 | On the same input, the code as written raises NameError. |
| `OriginStrategy.RepairAgreesElsewhere` | backend/app/services/authentication/jwt.py:32-64 | Wherever the source returns normally or raises its own signal, the repaired strategy gives the identical result. |
| `OriginStrategy.WriteClaims` | backend/app/services/authentication/jwt.py:66-67 | The written claims carry the user's id under the subject claim name, and the audience, but never a `request_origin` key. The subject claim name belongs to the JWT library and is a parameter. |
| `OriginStrategy.WrittenTokenReadsAsNone` | backend/app/services/authentication/jwt.py:66-67 | A token that decodes to the claims `write_token` signs reads back as None, both as written and repaired. |
| `UserModel.CheckName` | backend/app/models/user.py:41-50 | The name constraint of the record and of the read, create and update schemas. It succeeds iff a name is present with 4 to 20 characters, and keeps it. Missing, too short (checked first) and too long are each reported exactly when they apply. |
| `UserModel.NewUser` | backend/app/models/user.py:19-38 | Constructing a `user` validates it, so every built record satisfies the constraints. It succeeds iff the name is valid, a hashed password of at most 1024 characters is given and an e-mail is given. It keeps the given values, and missing flags default to active, not superuser, not verified. On failure it names exactly the failing fields. |
| `UserModel.NewUserDefaults` | backend/app/models/user.py:25-27 | A new user with no flags given is active, not a superuser and not verified. |
| `UserModel.NewUserIffValid` | backend/app/models/user.py:36-38 | A record built from complete values comes back unchanged exactly when it is valid. Otherwise the failure names exactly the name and/or hashed-password field. |
| `UserModel.RegistrationNameExamples` | backend/tests/test_users.py:78-93 | `"sha"`, `"ab"` and a 28-character name are rejected; `"shakirashakira"` is accepted. `"shakira@#$%^<>"` passes the length-only constraint. |
| `CleaningModel.ParseCleaningType` | backend/app/models/cleaning.py:11-14 | Exactly `"dust_up"`, `"spot_clean"` and `"full_clean"` parse, each to the member whose value it is; every other string is rejected. |
| `CleaningModel.CleaningTypeRoundTrip` | backend/app/models/cleaning.py:11-14 | Every member parses back from its own value. |
| `CleaningModel.CheckPrice` | backend/app/models/cleaning.py:8 | A price passes iff its exponent is at least -2 (at most two decimal places) and its digit count plus exponent is at most 8 (at most eight whole digits). A passing price is returned unchanged. |
| `CleaningModel.NumDigitsBound` | backend/app/models/cleaning.py:8 | A positive coefficient has at most k digits exactly when it is below 10^k. |
| `CleaningModel.PriceBoundInCents` | backend/app/models/cleaning.py:8 | A non-zero price passes exactly when it has at most two decimal places and, counted in hundredths, is below 10^10, so below 100,000,000. |
| `CleaningModel.ZeroPriceBound` | backend/app/models/cleaning.py:8 | A zero price passes exactly when its exponent lies between -2 and 7. |
| `CleaningModel.PowerOfTenPriceBound` | backend/app/models/cleaning.py:8 | A whole power of ten passes exactly up to 10^7; 10^8 has too many whole digits. |
| `CleaningModel.PriceExamples` | backend/app/models/cleaning.py:8 | 29.99 and 99999999.99 pass. 100000000.00 has too many digits, 1.000 too many places, and 1E+8 too many whole digits. |
| `CleaningModel.Parse` | backend/app/models/cleaning.py:17-39 | A payload passes iff the schema's required name and price are present, a given price passes the decimal check, a given type is a valid member, and a null type appears only where the schema allows it. Given values are kept and absent ones become None. An absent type becomes `spot_clean`, or None in the update schema. A null type, where allowed, becomes None. On failure it names exactly the failing fields. |
| `CleaningModel.CreateNeedsNameAndPrice` | backend/app/models/cleaning.py:24-26 | `cleaning_create` accepts only payloads with a name and a price, and the description never changes whether it accepts. |
| `CleaningModel.CreateAcceptedIsStorable` | backend/app/models/cleaning.py:24-39 | The stored `cleanings` model validates every payload exactly as `cleaning_create` does. |
| `CleaningModel.EmptyBaseDefaults` | backend/app/models/cleaning.py:17-21 | In the base schema an empty payload is valid, with name, description and price None and the type `spot_clean`. |
| `CleaningModel.RejectedPayloadExamples` | backend/tests/test_cleanings.py:53-60 | The test payloads `{}`, name only, price only, and name with description are rejected by `cleaning_create`, each naming the missing fields. An invalid type string is rejected by `cleaning_update`. |
| `Engine.IsTest` | backend/app/db/engine.py:13-14 | Test mode holds exactly when `TESTING` is set to a non-empty string. |
| `Engine.IsTestExamples` | backend/app/db/engine.py:13-14 | `"0"`, `"false"` and `"1"` all mean test mode. An unset or empty variable does not. |
| `Engine.GetTestUrl` | backend/app/db/engine.py:17-21 | Fails iff the database name is None. Otherwise the database becomes the old name followed by `_test`, and no other part changes. |
| `Engine.TestUrlDiffers` | backend/app/db/engine.py:17-21 | The test URL is never the original URL. |
| `Engine.GetEngineKwargs` | backend/app/db/engine.py:24-38 | The keys are `pool_pre_ping`, `future` and `poolclass`, plus `pool_size` outside test mode, plus the caller's keys. Caller values win everywhere. Otherwise: `pool_pre_ping` and `future` are true; the pool class is NullPool in test mode, QueuePool when sync, AsyncAdaptedQueuePool when async; `pool_size` is 10 outside test mode and absent in test mode. |
| `Engine.SyncDriverName` | backend/app/db/engine.py:70-73 | The result is a prefix of the driver name with no `+`, and it stops at a `+` or at the end. |
| `Engine.SyncDriverNameUnique` | backend/app/db/engine.py:70-73 | Only one string has those three properties, so they define `split("+")[0]`. |
| `Engine.SyncDriverNameExamples` | backend/app/db/engine.py:70-73 | `"postgresql+asyncpg"` becomes `"postgresql"`; `"postgresql"` stays. |
| `Engine.NoPlusUnchanged` | backend/app/db/engine.py:70-73 | A driver name without `+` is unchanged. |
| `Engine.SyncUrl` | backend/app/db/engine.py:70-73 | Converting to sync changes only the driver name. The new name is the `+`-free prefix of the old one that stops at its first `+` or at its end. |

## Findings

| source | as written | input that shows it | evidently intended | confidence | as-written member | corrected member |
|---|---|---|---|---|---|---|
| backend/app/services/authentication/jwt.py:60-64 | The `except` clause names the module `exceptions`, which is never imported. When `parse_id` or `get` raises, evaluating the clause raises NameError. | Claims with a matching origin and a `user_id` that fails to parse or names no user | Return None | high; not executed | `OriginStrategy.AsWrittenUnknownIdRaisesNameError` | `OriginStrategy.UnknownIdGivesNone` |
| backend/app/services/authentication/jwt.py:45-50 | The expired-signature handler is `...` and does not return. Line 50 then reads the unbound `data` and raises UnboundLocalError. | `decode_jwt` raises ExpiredSignatureError | Raise the distinct `expire_refresh` signal declared at lines 22-23 | medium; not executed (the intended outcome is inferred from the unused class) | `OriginStrategy.AsWrittenExpiredIsUnbound` | `OriginStrategy.ExpiredRaisesExpireRefresh` |

## Left out

- JWT signing and verification: `decode_jwt`, `generate_jwt`, HS256, audience and expiry checks. This is a foreign library. Decoding is a parameter that yields claims, `Expired` or `Invalid`.
- Password hashing and the user manager's `create`, `authenticate`, `get` and `parse_id`: these belong to fastapi-users. `get` and `parse_id` are partial-function parameters.
- The `on_after_register`, `on_after_forgot_password` and `on_after_request_verify` hooks: they only print.
- `create_transport` (the bearer transport): the final registry does not use it.
- Dependency-injection plumbing: `get_user_db`, `get_user_manager`, `create_fastapi_users`, `fastapi_user_class.init`, `backend_depends`, `strategy_depends`.
- Database I/O and engine creation: `get_test_engine`, `create_engine_from_url`, `create_sync_engine_from_url`, `user.get_from_email`.
- `Engine.SyncUrl`: models only the URL rewrite of `convert_async_to_sync`, not the creation of the sync engine.
- Record ids and the `created_at` / `updated_at` timestamps: they come from the storage layer and the wall clock.
- Asynchrony: every operation is sequential.
- `Backends.CreateBackend`: the coefficient is a natural multiplier (1 and 10), so `round` is exact; float rounding is not modelled.
- `PasswordPolicy.Validate`: the reason is data (the bound or the class), not the formatted message text.
- `UserModel.NewUser`: any present e-mail string is accepted; the `EmailStr` format check belongs to the validation library.
- `UserModel.NewUser`: models the re-validation that the constructor's call to `self.validate(self)` intends. Whether the library's `validate` re-checks an object that is already an instance, rather than copying it, is library behaviour and is not part of this model.
- `Backends.GetBackend`: a boolean key is not a separate case, although Python would treat it as position 0 or 1.
- `OriginStrategy.WriteClaims`: the name of the subject claim comes from the JWT library's base `write_token`, which is not part of this model, so it is a parameter. The base strategy of some library versions calls it `sub`. The test at tests/test_users.py:140-141 expects `user_id`. The model promises only that the written claims carry no `request_origin`.
- `OriginStrategy.ReadToken`: claim values are null, booleans, integers, strings and lists. A float equal to the port, or a nested object, is not modelled.
- `CleaningModel.Parse`: fields are modelled by presence and by their declared type. The library's coercion of other JSON types (a float price, a number given as a name) is left out.
- `CleaningModel.CheckPrice`: NaN and infinite decimals are not modelled; the library rejects them before counting digits.
