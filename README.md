# Kairos authentication core, in Dafny

Kairos is an agricultural traceability service: an actix-web backend with a Dioxus frontend.
This project models the part of it that decides who a request belongs to, and in which language the interface speaks.
The model proves properties of each piece:

- **Language codec** (`kairos-common`): ten languages and their ISO 639-1 codes, `to_str` / `from_str` / `Display` / `Default`.
- **Error taxonomy** (`backend/src/errors.rs`): `AppError`, the `From` conversions of library errors, the HTTP status and JSON body of each variant (status meanings per RFC 9110 section 15), and `Display`.
- **Configuration** (`backend/src/config.rs`): `AppConfig::from_env` over an environment given as a map, with the Rust integer parse written out exactly.
- **Tokens** (`backend/src/auth/jwt.rs`, `backend/src/auth/mod.rs`): the RFC 7519 claims `sub`, `exp` and `iat` (sections 4.1.2, 4.1.4 and 4.1.6), `create_token` including its 64-bit wrap-around, and the two validators with their different error mappings. The jsonwebtoken codec is abstract.
- **Authorization gates** (`backend/src/auth/middleware.rs`):
  - the early-return decision chain of each gate, as a function;
  - the request object whose extensions each gate writes and whose downstream service it calls, as methods proved against those functions.
- **Login and registration handlers** (`backend/src/handlers/auth.rs`, `backend/src/auth/handlers.rs`):
  - a producer store class keyed by email;
  - register as check, then create, then issue;
  - the two files' different treatment of login failures;
  - the literal signing secret "your-secret-key", which the gates do not use.
- **i18n** (`frontend/src/i18n/mod.rs`, `frontend/src/hooks/use_i18n.rs`):
  - the `Translations` class and the table built from it by successive `add` calls;
  - the lookup with fallback: the requested language, then English, then the key itself;
  - the translation closure;
  - `get_default_language`, as a loop with early returns proved against a specification function.

One Dafny module per source file:

| file | module |
|---|---|
| `common.dfy` | the `kairos-common` library |
| `errors.dfy`, `config.dfy` | `backend/src/errors.rs`, `backend/src/config.rs` |
| `jwt.dfy`, `auth.dfy`, `middleware.dfy` | `backend/src/auth/jwt.rs`, `backend/src/auth/mod.rs`, `backend/src/auth/middleware.rs` |
| `handlers_auth.dfy` | `backend/src/handlers/auth.rs` |
| `auth_handlers.dfy` | `backend/src/auth/handlers.rs` |
| `i18n.dfy`, `use_i18n.dfy` | the two frontend files |

Four helper modules model library behaviour the core relies on:

- `prelude.dfy`: Option, Result, foreign errors and bytes.
- `text.dfy`: Rust's `str::parse` for `i64` and `u16`, decimal rendering, ASCII lower-casing and prefixes.
- `uuids.dfy`: the uuid crate's `parse_str` and `to_string`.
- `store.dfy`: the producer store that the models file provides.

Inputs stand in for the outside world:

- **Clocks.** `Utc::now` and `SystemTime::now` are the two readings of a `Clock`.
- **Environment.** A map from variable name to an optional value. None means set but not Unicode.
- **Database.** `NoPool`, `ConnectionFails`, or a map from id to producer for the gates. For the handlers: the store, plus the error `pool.get()` or the insert may raise and the id the database assigns.
- **Codec.** The jsonwebtoken encoder and decoder are function-typed parameters.
- **Password check.** A `Verifier`: a predicate plus the two errors `authenticate` reports.
- **Browser.** The saved local-storage item and the `navigator.languages` list.

## Model

| member | source | states |
|---|---|---|
| Common.ToStr | kairos-common/src/lib.rs:24-37 | every language code is exactly two lower-case ASCII letters |
| Common.FromStr | kairos-common/src/lib.rs:51-65 | accepts exactly the ten codes; an accepted string is the `to_str` of the language returned |
| Common.Display | kairos-common/src/lib.rs:41-45 | the displayed text is read back by `from_str` as the same language |
| Common.Default | kairos-common/src/lib.rs:10-11 | the default language is Spanish, code "es" |
| Common.FromStrOfToStr | kairos-common/src/lib.rs:24-65 | `from_str(to_str(l)) == Ok(l)` for every language |
| Common.ToStrInjective | kairos-common/src/lib.rs:25-36 | the ten codes are pairwise distinct |
| Common.FromStrAcceptsExactlyCodes | kairos-common/src/lib.rs:51-65 | a string is accepted iff some language has it as its code |
| Common.FromStrRejectsVariants | kairos-common/src/lib.rs:52-63 | "ES", "es-AR", "" and "en " are rejected |
| Errors.ErrorResponseOf | backend/src/errors.rs:89-145 | total; every status is one of 400, 401, 403, 404, 500; the five message variants put their message in the body unchanged |
| Errors.MessageVariantsStatus | backend/src/errors.rs:90-115 | BadRequest, Unauthorized, Forbidden, NotFound and InternalServerError give 400, 401, 403, 404 and 500 with body equal to the message |
| Errors.WrappedVariantsFixed | backend/src/errors.rs:116-143 | database, pool, bcrypt and blocking errors give 500 with fixed messages; JWT errors 401 "Invalid token"; UUID errors 400 "Invalid ID format", whatever is wrapped |
| Errors.WrappedPayloadInvisible | backend/src/errors.rs:116-143 | two errors of the same library-wrapping variant give identical responses, so no library text reaches the client |
| Errors.FromDiesel | backend/src/errors.rs:49-56 | diesel NotFound becomes a 404 "Record not found"; every other diesel error becomes DatabaseError, hence 500 |
| Errors.FromPool | backend/src/errors.rs:58-62 | an r2d2 error is wrapped, uninspected, as PoolError |
| Errors.FromJwt | backend/src/errors.rs:64-68 | a jsonwebtoken error is wrapped, uninspected, as JwtError |
| Errors.FromBcrypt | backend/src/errors.rs:70-74 | a bcrypt error is wrapped, uninspected, as BcryptError |
| Errors.FromBlocking | backend/src/errors.rs:76-80 | a blocking error is wrapped, uninspected, as BlockingError |
| Errors.FromUuid | backend/src/errors.rs:82-86 | a uuid error is wrapped, uninspected, as UuidError |
| Errors.Display | backend/src/errors.rs:31-46 | the text is the variant's label followed by its message or library text, e.g. "Unauthorized: " + m |
| Errors.DisplayCarriesLibraryText | backend/src/errors.rs:31-46 | the wrapped library text ends the Display text, so two errors of one wrapping variant with different library texts display differently while their HTTP responses are identical |
| Text.ParseI64 | backend/src/config.rs:18-21 | `str::parse::<i64>` accepts exactly an optional '+' or '-' followed by one or more decimal digits whose signed value lies in the i64 range, and returns that value |
| Text.ParseU16 | backend/src/config.rs:23-26 | `str::parse::<u16>` accepts exactly an optional '+' followed by one or more decimal digits whose value is at most 65535, and returns that value |
| Text.ParseI64OfDecimal | backend/src/config.rs:18-21 | every i64 written in decimal parses back to itself |
| Text.ParseU16OfDecimal | backend/src/config.rs:23-26 | every u16 written in decimal parses back to itself |
| Text.ParseRejectsNonNumerals | backend/src/config.rs:18-26 | letters, blanks around the digits, a lone or doubled sign, the empty string and 65536 (for u16) are refused, so such a setting aborts loading |
| Text.ParseU16RejectsMinus | backend/src/config.rs:23-26 | a u16 parse rejects every string that starts with '-' |
| Config.Var | backend/src/config.rs:16-26 | `env::var(..).ok()` yields a value iff the variable is set to valid Unicode, and then that value |
| Config.FromEnv | backend/src/config.rs:14-28 | loading succeeds iff each field succeeds, with the fields' values; the first failing field in source order (DATABASE_URL, JWT_SECRET, JWT_EXPIRATION, SERVER_PORT) decides the panic; the expiration lies in i64, the port in u16 |
| Config.MandatoryVariables | backend/src/config.rs:16-17 | a missing DATABASE_URL, or a present one with a missing JWT_SECRET, fails with that variable's message |
| Config.MandatoryCopiedVerbatim | backend/src/config.rs:16-17 | the loaded database_url and jwt_secret are the environment's values verbatim |
| Config.DefaultExpirationParses | backend/src/config.rs:18-21 | the default "86400" parses as 86400 |
| Config.DefaultPortParses | backend/src/config.rs:23-26 | the default "8080" parses as 8080 |
| Config.JwtExpirationRule | backend/src/config.rs:18-21 | an absent JWT_EXPIRATION gives 86400; a present one succeeds iff it parses as an i64, and then with the parsed value |
| Config.ServerHostRule | backend/src/config.rs:22 | an absent SERVER_HOST gives "127.0.0.1"; a present one is copied verbatim |
| Config.ServerPortRule | backend/src/config.rs:23-26 | an absent SERVER_PORT gives 8080; a present one succeeds iff it parses as a u16; the port is at most 65535 |
| Config.ServerPortRange | backend/src/config.rs:23-26 | a decimal port is accepted, as itself, exactly when it is at most 65535 |
| Uuids.ParseStr | backend/src/auth/jwt.rs:56 | `Uuid::parse_str` succeeds iff the string has one of the four layouts and its 32 digit characters are hexadecimal; the result's digits, written in lower case, are those characters lower-cased; otherwise the UUID error |
| Uuids.ToString | backend/src/handlers/auth.rs:29 | `to_string` is the 36-character hyphenated form |
| Uuids.ParseToString | backend/src/handlers/auth.rs:29 | parsing a rendered UUID gives it back, so a producer id passed through `to_string` always parses |
| Uuids.ToStringInjective | backend/src/handlers/auth.rs:29 | distinct UUIDs render differently |
| Jwt.NewClaims | backend/src/auth/jwt.rs:17-24 | `Claims::new(u, e)` at time now has sub u, iat now, and exp − iat == e |
| Jwt.AsI64 | backend/src/auth/jwt.rs:57 | `as i64` gives the i64 congruent to its argument modulo 2^64: values up to i64::MAX are unchanged, larger ones lose 2^64 |
| Jwt.IssuedClaims | backend/src/auth/jwt.rs:50-59 | the signed claims have sub = the parsed id and iat = the Utc reading; exp is the i64 congruent to system seconds + 86400 modulo 2^64: that sum up to i64::MAX, the sum less 2^64 above it |
| Jwt.CreateToken | backend/src/auth/jwt.rs:44-73 | a non-UUID user id gives the UUID error; an encoder failure gives JwtError; a parsed id with a successful encoding gives Ok with that token, "Bearer" and 86400; success returns "Bearer", 86400 and the encoding of the claims for the parsed id |
| Jwt.CreateTokenIgnoresEmailAndRole | backend/src/auth/jwt.rs:44-48 | the email and role arguments never change the result |
| Jwt.SecretOnlyAffectsAccessToken | backend/src/auth/jwt.rs:61-72 | two issuances for the same user under different secrets agree on token_type and expires_in |
| Jwt.LifetimeMatchesExpiresIn | backend/src/auth/jwt.rs:50-71 | with one clock reading and no overflow, exp − iat == expires_in == 86400 |
| Jwt.ExpiryWrapsNearTheEndOfTime | backend/src/auth/jwt.rs:50-57 | when seconds + 86400 exceeds i64::MAX but stays below 2^64, the `as i64` cast makes exp the negative number seconds + 86400 - 2^64 |
| Jwt.ExpiryWrapsPastUsize | backend/src/auth/jwt.rs:50-57 | when seconds + 86400 reaches 2^64 the usize addition wraps, and exp is seconds + 86400 - 2^64, between 0 and 86399 |
| Jwt.ValidateToken | backend/src/auth/jwt.rs:75-83 | success iff the decoder succeeds, with its claims unchanged; every failure is JwtError, hence 401 "Invalid token" |
| Jwt.IssueThenValidate | backend/src/auth/jwt.rs:44-83 | when the codec reads back the claims just issued, validating an issued token yields claims whose sub is the parsed user id and iat the issue time |
| Jwt.CreateTokenForProducerId | backend/src/auth/jwt.rs:56 | for an id written by `to_string`, issuance fails only through the encoder, never with the UUID error |
| Auth.VerifyToken | backend/src/auth/mod.rs:15-24 | success iff the decoder succeeds, with its claims unchanged; a failure is Unauthorized("Token verification failed: " + decoder text) |
| Auth.VerifyTokenLeaksDecoderText | backend/src/auth/mod.rs:21 | a failure is never JwtError, and its 401 body carries the decoder's own message |
| Auth.VerifyTokenDistinguishesFailures | backend/src/auth/mod.rs:21 | decoder failures with different texts give different response bodies |
| Middleware.HeaderToStr | backend/src/auth/middleware.rs:56 | a header value converts iff every byte is visible ASCII or tab, and then character for byte |
| Middleware.BearerToken | backend/src/auth/middleware.rs:53-58 | a token is found iff the header is present, converts, and starts with exactly "Bearer "; the token is the rest |
| Middleware.AuthGate | backend/src/auth/middleware.rs:51-91 | no bearer token gives "Missing authorization header", then no configuration "Configuration not available", then a decoder failure "Invalid token"; success returns the decoded claims |
| Middleware.ProducerGate | backend/src/auth/middleware.rs:129-195 | the token gate's rejections pass through; an admitted producer is active and comes with the same claims |
| Middleware.ProducerGateAdmits | backend/src/auth/middleware.rs:150-182 | the producer gate admits iff the token gate does, sub is a UUID, a connection exists, the id resolves and the producer is active; it returns that producer and the claims; when the table files producers under their own ids, the attached producer's id is the token's subject |
| Middleware.ProducerGateRejections | backend/src/auth/middleware.rs:153-173 | after a successful decode the rejections are, in order, "Invalid producer ID in token", "Database pool not available", "Database connection failed", "Producer not found", "Producer account is inactive" |
| Middleware.BearerTokenStripsPrefix | backend/src/auth/middleware.rs:57 | the token handed to the decoder is the header value without "Bearer " |
| Middleware.LowerCaseSchemeRejected | backend/src/auth/middleware.rs:57 | "bearer " in lower case counts as a missing header |
| Middleware.OpaqueHeaderRejected | backend/src/auth/middleware.rs:56 | a header with a non-visible byte counts as a missing header |
| Middleware.TokenGateIsStale | backend/src/auth/middleware.rs:171-173 | a deactivated producer is rejected by the producer gate even for a token the token gate admits |
| Middleware.CallService | backend/src/auth/middleware.rs:77 | the wrapped service is called once on the request's extensions, which it leaves unchanged |
| Middleware.AuthMiddlewareCall | backend/src/auth/middleware.rs:51-91 | a rejection leaves extensions and downstream untouched; success inserts only the claims and calls downstream exactly once |
| Middleware.ProducerAuthMiddlewareCall | backend/src/auth/middleware.rs:129-195 | a rejection leaves extensions and downstream untouched; success inserts producer and claims, calls downstream exactly once, and `get_producer_from_request` then returns that producer |
| Middleware.GetProducerFromRequest | backend/src/auth/middleware.rs:199-204 | returns the attached producer iff one is attached; otherwise Unauthorized("Producer not found in request"), a 401 |
| Middleware.ReqDataProducer | backend/src/handlers/auth.rs:61 | the `ReqData<Producer>` extractor succeeds iff a producer is attached, with that producer |
| Store.FindByEmail | backend/src/handlers/auth.rs:19 | finds a producer iff the email is stored, and returns the stored producer |
| Store.Authenticate | backend/src/handlers/auth.rs:45 | succeeds iff the email is stored and the password matches; otherwise the unknown-email or wrong-password error |
| Store.NewProducer | backend/src/handlers/auth.rs:25 | a created producer has the assigned id and the request's email, is active and not email-verified |
| Store.Created | backend/src/handlers/auth.rs:25 | creation succeeds iff the insert does, filing the new producer under its email; a failure leaves the store as it was; each producer stays under its own email |
| Store.ProducerStore.Create | backend/src/handlers/auth.rs:25 | the store method returns and leaves exactly what `Created` describes, and keeps producers filed by email |
| HandlersAuth.IssueFor | backend/src/handlers/auth.rs:28-33 | issuing for a producer fails only when the encoder does (JwtError), and otherwise returns the signature of the producer's id under "your-secret-key", "Bearer", 86400 |
| HandlersAuth.RegisterOutcome | backend/src/handlers/auth.rs:12-36 | the store either stays the same or gains exactly the new producer under a previously unknown email; a pool failure changes nothing |
| HandlersAuth.Register | backend/src/handlers/auth.rs:12-36 | the handler's response and the store afterwards are those of `RegisterOutcome` |
| HandlersAuth.RegisterRejectsDuplicate | backend/src/handlers/auth.rs:19-22 | a known email gives 400 "Email already exists" with the store unchanged, whatever the insert would have done |
| HandlersAuth.RegisterSucceeds | backend/src/handlers/auth.rs:25-35 | success iff pool, new email, insert and signing all succeed; then 201 with the token signed for the new producer's id, and the store gains that producer |
| HandlersAuth.RegisterCommitsBeforeSigning | backend/src/handlers/auth.rs:25-33 | if signing fails after the insert, the producer stays stored while the client gets 401 "Invalid token" |
| HandlersAuth.RegisterTwice | backend/src/handlers/auth.rs:19-25 | after a successful registration, registering the same email again is rejected and leaves the store unchanged |
| HandlersAuth.RegisterKeepsStoreKeyed | backend/src/handlers/auth.rs:12-36 | registration keeps every producer filed under its own email |
| HandlersAuth.Login | backend/src/handlers/auth.rs:38-57 | success is a 200; a failure is the pool error, Unauthorized "Invalid credentials", or a JWT error |
| HandlersAuth.LoginFailureUniform | backend/src/handlers/auth.rs:45-46 | every authentication failure, unknown email or wrong password, is 401 "Invalid credentials" |
| HandlersAuth.LoginSucceeds | backend/src/handlers/auth.rs:49-56 | success iff the pool, the credentials and signing succeed; then 200 with the token signed for the stored producer's id under the literal secret |
| HandlersAuth.LoginTokenRejectedByGate | backend/src/handlers/auth.rs:49-53 | when the configured JWT_SECRET is not "your-secret-key" and the codec binds tokens to their secret, the gate rejects a login token as "Invalid token" |
| HandlersAuth.GetProfile | backend/src/handlers/auth.rs:59-65 | 200 with the gate-attached producer unchanged; with none attached, a 500 from the extractor |
| AuthHandlers.Login | backend/src/auth/handlers.rs:10-25 | success is a 200; a failure is the pool error, a JWT error, or one of the store's two authentication errors as they are |
| AuthHandlers.LoginPropagatesAuthenticationError | backend/src/auth/handlers.rs:16 | an authentication failure reaches the client as the store reported it: unknown email or wrong password |
| AuthHandlers.LoginAgreesOnSuccess | backend/src/auth/handlers.rs:18-24 | on success (or a pool failure) both login handlers answer alike: 200 with the three fields `create_token` returned |
| AuthHandlers.LoginErrorsContrast | backend/src/auth/handlers.rs:16 | when the store's two errors differ in response, this login lets a client tell an unknown email from a wrong password, and the other login does not |
| AuthHandlers.Register | backend/src/auth/handlers.rs:27-47 | response and store afterwards equal those of the other `register`: duplicate check, create, 201 with the copied token fields |
| AuthHandlers.Logout | backend/src/auth/handlers.rs:49-56 | always 200 with "Logged out successfully"; it takes no store or token, so nothing changes |
| AuthHandlers.Me | backend/src/auth/handlers.rs:58-64 | 200 with the gate-attached producer unchanged; with none attached, the extractor's error |
| I18n.LanguageCode | frontend/src/i18n/mod.rs:5-18 | `language_code(l)` equals `to_str(l)`, and `from_str` reads it back as l |
| I18n.LanguageName | frontend/src/i18n/mod.rs:20-33 | a language's display name is never its two-letter code |
| I18n.LanguageNamesDistinct | frontend/src/i18n/mod.rs:20-33 | the ten language names are pairwise distinct |
| I18n.Translations.constructor | frontend/src/i18n/mod.rs:42-47 | a new catalogue has its language and no messages |
| I18n.Translations.Add | frontend/src/i18n/mod.rs:49-51 | after `add(k, v)`, `get(k) == Some(v)`, overwriting any earlier value, and every other key reads as before |
| I18n.Translations.Get | frontend/src/i18n/mod.rs:53-55 | `get(k)` is Some iff k is stored, with the stored value |
| I18n.BuildSpanish | frontend/src/i18n/mod.rs:67-83 | the fifteen `add` calls leave exactly the Spanish catalogue |
| I18n.BuildPortuguese | frontend/src/i18n/mod.rs:86-102 | the fifteen `add` calls leave exactly the Portuguese catalogue |
| I18n.BuildEnglish | frontend/src/i18n/mod.rs:105-121 | the fifteen `add` calls leave exactly the English catalogue |
| I18n.BuildTable | frontend/src/i18n/mod.rs:63-124 | the table holds fresh catalogues for exactly Spanish, Portuguese and English, each under its own language |
| I18n.CataloguesShareKeys | frontend/src/i18n/mod.rs:67-121 | the three catalogues have the same keys |
| I18n.GetTranslation | frontend/src/i18n/mod.rs:126-140 | the requested language's entry if present, else the English entry if present, else the key itself |
| I18n.GetLanguageTranslations | frontend/src/i18n/mod.rs:142-145 | a copy exists exactly for Spanish, Portuguese and English; it is a fresh `Translations` with that language and the whole catalogue, and its `get` agrees with the lookup on every key |
| I18n.AppTitles | frontend/src/i18n/mod.rs:160-172 | "app.title" reads as the three titles the unit tests expect |
| I18n.UntabledLanguagesUseEnglish | frontend/src/i18n/mod.rs:126-145 | for the seven other languages every lookup equals English's and there is no catalogue |
| I18n.AbsentKeyReturnedUnchanged | frontend/src/i18n/mod.rs:139 | a key in no catalogue comes back unchanged in every language |
| I18n.TabledLanguagesNeverFallBack | frontend/src/i18n/mod.rs:128-131 | for Spanish, Portuguese and English every catalogued key reads that language's own entry |
| UseI18n.Translate | frontend/src/hooks/use_i18n.rs:26-39 | "app.title" is "Kairos"; "app.welcome" is Bienvenido, Bem-vindo, or Welcome otherwise; every other key is unchanged |
| UseI18n.TranslateIgnoresCatalogue | frontend/src/hooks/use_i18n.rs:29 | the closure's title differs from the catalogue's title in every language |
| UseI18n.EntryLanguage | frontend/src/hooks/use_i18n.rs:59-64 | a browser entry decides iff its lower-cased form starts with "es", "pt" or "en"; "es" gives Spanish, else "pt" Portuguese, else "en" English |
| UseI18n.BrowserLanguage | frontend/src/hooks/use_i18n.rs:56-66 | browser detection yields only Spanish, Portuguese or English |
| UseI18n.BrowserLanguageFirstMatch | frontend/src/hooks/use_i18n.rs:58-65 | detection finds nothing iff no entry decides, and otherwise follows the first deciding entry |
| UseI18n.GetDefaultLanguage | frontend/src/hooks/use_i18n.rs:43-70 | the scan with early returns computes the saved code if it parses, else the first deciding browser entry, else the default |
| UseI18n.SavedTakesPrecedence | frontend/src/hooks/use_i18n.rs:45-52 | a saved code that `from_str` accepts wins over the browser |
| UseI18n.UnparsableSavedFallsThrough | frontend/src/hooks/use_i18n.rs:48 | a saved value `from_str` rejects counts as no saved value |
| UseI18n.BrowserDetectionRange | frontend/src/hooks/use_i18n.rs:61-69 | without a saved code the result is Spanish, Portuguese or English, and Spanish when no entry decides |
| UseI18n.StoredLanguageReadBack | frontend/src/hooks/use_i18n.rs:14 | the stored `to_str` value is read back as the same language |
| UseI18n.EntryExamples | frontend/src/hooks/use_i18n.rs:60-63 | "ES-ar" is Spanish and "PT" Portuguese; "fr-FR" decides nothing |

## Left out

### Framework and I/O
- actix `Transform`/`Service` plumbing, `forward_ready!`, async futures and `Box::pin` are framework machinery. Each gate is one synchronous method on a request object.
- The `Lazy<Mutex<…>>` global translation table is modelled as an immutable constant. It is locked and read, never written after initialisation.
- The hook's Dioxus signal, its `use_effect` and local-storage writes are left out. Only the stored value's round trip is stated.
- backend/src/database.rs (pool construction, migrations) is left out. The pool appears only as the error `pool.get()` may raise.
- The schema backup, the CRUD handler files and their pagination arithmetic are not part of this model.

### Libraries kept abstract
- jsonwebtoken signing, signature verification and `Validation::default` (algorithm, `exp` checking) are abstract encoder and decoder functions. No signature or expiry semantics are claimed beyond Ok/Err, except under the named predicates `ReadsBack` (read-back of one issued claim set) and `SecretBound`.
- The `Claims::encode` and `Claims::decode` wrappers (backend/src/auth/jwt.rs:26-41) are not modelled separately: nothing in the core calls them, and they are the abstract codec.
- bcrypt is left out: `authenticate` is an abstract predicate with two abstract errors.
- The bodies of `Producer::find_by_email`, `authenticate`, `find_by_id` and `create` live in backend/src/models/producer.rs, which is not part of this model. They are operations on the store's map. `create` is taken to store an active producer whose email is not verified, as the repository's design notes say; when the request gives no language preference, Store.NewProducer uses `Language::default()` (Spanish, kairos-common/src/lib.rs:10-11), which is a choice of this model, since the design notes name no language default. In the producer gate any `find_by_id` failure is modelled as an absent id, since the gate maps every failure to "Producer not found".
- Store.FindByEmail: a map lookup can only miss with NotFound. Both `register` handlers test `find_by_email(..).is_ok()` (backend/src/handlers/auth.rs:19-20, backend/src/auth/handlers.rs:34), so a database error other than NotFound counts there as "no such email" and registration goes on to `create`. The model cannot represent that path.
- Uuids.ParseStr: the uuid crate's detailed error messages (which character, which group) are one fixed error value.
- serde JSON encoding of bodies is left out. A body is its Rust value.

### Numbers, time and text
- Floats, chrono date-time types and the producer's timestamps and password hash are not modelled.
- Jwt.Clock: `systemSecs` is a nat, so a system clock set before the Unix epoch is not represented. There `duration_since(UNIX_EPOCH).unwrap()` (backend/src/auth/jwt.rs:50-52) panics.
- Jwt.NewClaims: chrono's checked addition would panic on overflow, which the model leaves out.
- Jwt.IssuedClaims: the usize addition is taken to wrap as on a 64-bit release build. A debug build would panic instead.
- UseI18n.EntryLanguage: lower-casing is ASCII only, where Rust's `to_lowercase` is full Unicode. This decides every prefix as Unicode lower-casing would: no non-ASCII character lower-cases to e, s, p, t or n (the only ones that lower-case into ASCII are the Kelvin sign, to k, and dotted capital I, to i plus a combining dot).

### Where the design notes and the code disagree
- Middleware.ProducerGate: the repository's design notes say an inactive producer is refused with 403 Forbidden. The code answers 401 ("Producer account is inactive"), and the model follows the code.
- The unit test at frontend/src/i18n/mod.rs:153-157 calls a `code()` method that `Language` does not define. Only the test at 160-172 is stated (I18n.AppTitles).
