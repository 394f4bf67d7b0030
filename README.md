# weather-api in Dafny

A model of the service core of `weather-api`, a Go HTTP service that fetches
current weather from OpenWeather, stores readings in PostgreSQL, and caches
them in Redis. It also issues and checks JWT bearer tokens. The model covers:

- the two weather services: the cache-aside one and the earlier cache-less one;
- the weather cache wrapper and its key scheme;
- the conversion between records and table rows;
- the OpenWeather client's request URL and reply mapping;
- configuration loading from the environment and the global configuration slot;
- the PostgreSQL connection string and retry loop;
- the migration manager;
- both authentication middlewares, the JWT helpers and the auth use case;
- application errors;
- request validation;
- the logger's field map and the log line formatter.

Each Go file is one Dafny module, next to four shared modules:

- `Wrappers`: `Option`, `Result` and Go's `error` shapes (sentinel, `errors.New`, `%w` wrapping).
- `Strs`: the parts of `strings` and `strconv` the code uses.
- `Domain`: the weather record, the API reading, and the "zero means unset" merge.
- `Collaborators`: in-memory stand-ins for the repository, the cache and the weather API. Each records its calls and can be made to fail. The cache's writes follow a per-call fault script, so that within one operation one write can fail while another succeeds.

Objects that the source updates in place are classes:

- the services over their collaborators;
- the cache wrapper;
- the migration manager and its migration source;
- the configuration registry.

Their methods state the whole new state, the result and the calls they make. The cache's contents after a sequence of calls are given by a replay function, and lemmas prove what each service leaves in the cache. Pure code (key and URL construction, mappers, token checks, error texts, formatting) is modelled as functions, and lemmas relate them.

Inputs that come from outside are parameters:

- the clock and new UUIDs;
- the HTTP round trip;
- the JWT library's signing, decoding and verification;
- the auth service;
- the RFC 3339 time formatter;
- the `.env` files that exist;
- the connection attempts.

## Model

| member | source | states |
|---|---|---|
| Domain.NewRecord | internal/application/service/weather_service.go:56-67 | a fetched record has the requested city and country, the reading's measurements and provider time, the new ID, and the clock for both creation and update time |
| Domain.ApplyUpdate | internal/application/service/weather_service.go:123-141 | the field-by-field overwrite yields exactly the "zero means unset" merge of the update into the stored record |
| Domain.MergeFields | internal/application/service/weather_service.go:123-141 | each mutable field becomes the update's value when that is non-zero and stays as stored otherwise; ID, fetch and creation times never change; the update time is the clock's |
| Domain.BlankUpdateTouchesOnlyUpdatedAt | internal/application/services/weather_services.go:70-88 | an all-zero update changes nothing but the update time |
| Domain.MergeIdempotent | internal/application/service/weather_service.go:123-141 | applying the same update twice equals applying it once |
| Domain.MergeCannotClear | internal/application/service/weather_service.go:123-140 | no update can clear a field: a merged field is empty or zero only if it already was |
| Domain.MergeMovesLocation | internal/application/service/weather_service.go:121-128 | the location changes exactly when the update sets a city or a country different from the stored one |
| Collaborators.Repository.Save | internal/application/interfaces/weather.go:10 | an insert fails on a storage failure or a taken primary key and otherwise adds the row; the call is recorded |
| Collaborators.Repository.FindByID | internal/application/interfaces/weather.go:11 | the stored row, `record not found`, or a storage failure |
| Collaborators.Repository.FindAll | internal/application/interfaces/weather.go:12 | the result lists every stored row exactly once and nothing else |
| Collaborators.Repository.FindLatestByCity | internal/application/interfaces/weather.go:13 | a stored row of the city whose fetch time is the greatest, or `record not found` when the city has no row |
| Collaborators.Repository.Update | internal/application/interfaces/weather.go:14 | the row under the record's ID becomes the record, unless storage fails |
| Collaborators.Repository.Delete | internal/application/interfaces/weather.go:15 | the row is gone (deleting an absent row is not an error), unless storage fails |
| Collaborators.Cache.Get | infrastructure/database/redis/redis.go:89-99 | the stored value, a `key not found: <key>` error on a miss, or the server's failure |
| Collaborators.Cache.Set | infrastructure/database/redis/redis.go:84-86 | the key holds the value afterwards unless the server fails this particular write; the write's outcome is taken from the per-call fault script and recorded with the call |
| Collaborators.Cache.Delete | infrastructure/database/redis/redis.go:115-117 | all the given keys are removed in one call unless the server fails this particular call, as the per-call fault script says |
| Collaborators.Cache.Keys | infrastructure/database/redis/redis.go:125-127 | every stored key with the prefix, each once, and no other key |
| Collaborators.WeatherApi.FetchWeatherData | internal/application/interfaces/weather_api_client.go:17 | the client's answer for the city and country, with the call recorded |
| Collaborators.ReplayAppend | internal/application/interfaces/cache.go:9-11 | replaying a trace of cache calls in two pieces equals replaying it whole |
| Collaborators.ReplayReadsOnly | internal/application/interfaces/cache.go:9-11 | reads, key listings and writes the server failed leave the cache unchanged |
| WeatherCache.ParseCityKey | internal/infrastructure/cache/redis/weather_cache.go:29-31 | whatever is parsed from a key rebuilds exactly that key |
| WeatherCache.ParseCityKeyRoundTrip | internal/infrastructure/cache/redis/weather_cache.go:29-31 | a city without `:` and its country are recovered from their key |
| WeatherCache.CityKeyInjective | internal/infrastructure/cache/redis/weather_cache.go:29-31 | distinct locations whose cities have no `:` get distinct keys |
| WeatherCache.LatestKeyCollision | internal/infrastructure/cache/redis/weather_cache.go:29-36 | the city/country key of the city "latest" is the latest-record key of the country: the two key families overlap |
| WeatherCache.CityPatternMatchesOnlyCityNamedCity | internal/infrastructure/cache/redis/weather_cache.go:98-113 | the listing pattern `weather:city:*` matches a city/country key exactly when the city is "city" or starts with "city:" |
| WeatherCache.WeatherCache.CacheWeather | internal/infrastructure/cache/redis/weather_cache.go:39-55 | writes the city/country key and then the latest key; a failed first write is returned, wrapped, and stops the second; a failed second write is ignored, the call succeeds and the city/country key keeps the record |
| WeatherCache.WeatherCache.GetWeatherByCityCountry | internal/infrastructure/cache/redis/weather_cache.go:58-69 | a miss or failure is wrapped with the key; a hit returns the record, and a stored null returns the zero record |
| WeatherCache.WeatherCache.GetLatestWeatherByCity | internal/infrastructure/cache/redis/weather_cache.go:72-82 | the same for the city's latest key, wrapped with the city |
| WeatherCache.WeatherCache.InvalidateWeather | internal/infrastructure/cache/redis/weather_cache.go:85-95 | both keys are deleted in one call, and a failure of that call is wrapped and leaves the cache as it was |
| WeatherCache.WeatherCache.GetCachedCities | internal/infrastructure/cache/redis/weather_cache.go:98-113 | one city per listed key (the key minus `weather:city:`), every matching key covered, no duplicates; a listing failure is returned |
| WeatherService.WeatherService.FetchAndStoreWeather | internal/application/service/weather_service.go:36-85 | a cache hit is returned with no API or repository call; an API error is returned and nothing is saved; a save error is returned and nothing is cached; otherwise the new record is saved and returned, and the cache ends as the replay of the city/country write and the ID write, each with its own outcome, so one can fail while the other succeeds |
| WeatherService.WeatherService.GetLatestWeatherByCity | internal/application/service/weather_service.go:87-89 | the repository's answer: the city's latest row, not found, or the failure |
| WeatherService.WeatherService.GetAllWeather | internal/application/service/weather_service.go:91-93 | every stored row exactly once, or the failure |
| WeatherService.WeatherService.GetWeatherByID | internal/application/service/weather_service.go:95-112 | a non-null cached record is returned with no repository call; otherwise the repository's answer is returned, and a found record is written under the ID, the write's failure being ignored |
| WeatherService.WeatherService.UpdateWeather | internal/application/service/weather_service.go:114-167 | a load or write failure is returned before the cache is touched; on success the merged record is stored and returned, and the cache ends as the replay of the ID write, the eviction of the old location's key only when the location moved, and the new location's write, each with its own outcome |
| WeatherService.WeatherService.DeleteWeather | internal/application/service/weather_service.go:169-195 | a failed load is tolerated and a failed delete is returned before any eviction; on success the row is gone and the cache ends as the replay of the ID key's eviction and, when the load succeeded, the city/country key's eviction, each with its own outcome |
| WeatherService.FetchWarmsBothKeys | internal/application/service/weather_service.go:75-84 | a stored fetch leaves the record under each of its two keys whose write succeeded, whatever the other write did; a key whose write failed keeps what it held |
| WeatherService.UpdateLeavesCacheConsistent | internal/application/service/weather_service.go:147-164 | the ID key holds the merged record if its write succeeded and is untouched otherwise; the new location's key holds it if its write succeeded; a moved record's old key is gone if its eviction succeeded and untouched otherwise |
| WeatherService.DeleteEvictsKeys | internal/application/service/weather_service.go:181-192 | each key whose eviction succeeded is gone, no key is added or changed, and when every eviction failed the cache is as it was |
| WeatherService.WeatherService.WarmCache | internal/application/service/weather_service.go:75-84 | the city/country write then the ID write, each consuming one entry of the fault script, and the cache is their replay |
| WeatherService.WeatherService.RefreshCache | internal/application/service/weather_service.go:147-164 | the ID write, the old key's eviction only when the location moved, then the new location's write, each consuming one entry of the fault script, and the cache is their replay |
| WeatherService.WeatherService.EvictCache | internal/application/service/weather_service.go:181-192 | the ID key's eviction and, when the record was loaded, the city/country key's eviction, each consuming one entry of the fault script, and the cache is their replay |
| WeatherService.EvictsExactlyWhenMoved | internal/application/service/weather_service.go:152-158 | an update issues the eviction, of the old location's key, exactly when it sets a different city or country |
| LegacyWeatherService.WeatherService.FetchAndStoreWeather | internal/application/services/weather_services.go:26-50 | always asks the API; an API error is returned with nothing saved; otherwise the built record is saved and returned, or the save error is returned |
| LegacyWeatherService.WeatherService.GetLatestWeatherByCity | internal/application/services/weather_services.go:52-54 | the repository's answer for the city's latest row |
| LegacyWeatherService.WeatherService.GetAllWeather | internal/application/services/weather_services.go:56-58 | every stored row exactly once, or the failure |
| LegacyWeatherService.WeatherService.GetWeatherByID | internal/application/services/weather_services.go:60-62 | the repository's answer for the ID |
| LegacyWeatherService.WeatherService.UpdateWeather | internal/application/services/weather_services.go:64-95 | a load or write failure is returned; otherwise the merged record is both stored and returned |
| LegacyWeatherService.WeatherService.DeleteWeather | internal/application/services/weather_services.go:97-99 | the row is gone unless the repository fails, and then its error is returned |
| WeatherMapper.ToDBModel | internal/infrastructure/database/postgres/weather/mapper.go:6-19 | every field of the record is copied to the row, none defaulted |
| WeatherMapper.ToDomainModel | internal/infrastructure/database/postgres/weather/mapper.go:22-35 | every field of the row is copied to the record, none defaulted |
| WeatherMapper.DomainRoundTrip | internal/infrastructure/database/postgres/weather/mapper.go:6-35 | converting a record to a row and back gives the same record |
| WeatherMapper.RowRoundTrip | internal/infrastructure/database/postgres/weather/mapper.go:6-35 | converting a row to a record and back gives the same row |
| WeatherMapper.ToDBModelInjective | internal/infrastructure/database/postgres/weather/mapper.go:6-19 | distinct records map to distinct rows |
| OpenWeather.NewClient | internal/infrastructure/openweather/client.go:17-23 | the client keeps the key and has a five-second timeout |
| OpenWeather.ToReading | internal/infrastructure/openweather/client.go:49-63 | a transport failure is wrapped; a reply with no `weather` entry is refused; otherwise the measurements are copied, the first description is taken, and the time is `dt` seconds after the epoch |
| OpenWeather.FetchedAtIsDt | internal/infrastructure/openweather/client.go:62 | the fetch time is exactly `dt` whole seconds |
| OpenWeather.LaterDescriptionsIgnored | internal/infrastructure/openweather/client.go:59 | only the first `weather` entry matters |
| OpenWeather.RequestUrlCollision | internal/infrastructure/openweather/client.go:41 | since nothing is escaped, a comma can move between the city and the country without changing the URL |
| OpenWeather.FetchCollision | internal/infrastructure/openweather/client.go:40-64 | two such locations get the same reading whatever the provider answers |
| OpenWeather.UrlShape | internal/infrastructure/openweather/client.go:41 | the URL is the base, the city, a comma, the country, `&appid=`, the key and the units |
| OpenWeather.RequestUrlInjective | internal/infrastructure/openweather/client.go:41 | with no comma in the city and no `&` in the country, the URL determines the city, the country and the key |
| Configs.Config.GetServer | internal/configs/config.go:49-51 | the server part, which with the other three parts rebuilds the configuration |
| Configs.Config.GetDatabase | internal/configs/config.go:53-55 | the database part, likewise |
| Configs.Config.GetOpenWeather | internal/configs/config.go:57-59 | the OpenWeather part, likewise |
| Configs.Config.GetRedis | internal/configs/config.go:61-63 | the Redis part, likewise |
| Configs.GettersRebuild | internal/configs/config.go:49-63 | the four getters together lose nothing |
| Configs.Registry.constructor | internal/configs/config.go:6 | the slot starts empty (a nil pointer) |
| Configs.Registry.SetGlobal | internal/configs/config.go:66-73 | `Global()` returns whatever was stored last |
| EnvLoader.GetEnvOrDefault | internal/configs/env_loader.go:170-179 | the variable's value when it is set and non-empty, and the default otherwise |
| EnvLoader.IntSetting | internal/configs/env_loader.go:50-75 | a decimal-integer text gives its value, and any other text gives the default |
| EnvLoader.EmptyEnvGivesDefaults | internal/configs/env_loader.go:42-153 | an environment with none of the variables yields port 8080, database `postgres@localhost:5432/weather` with sslmode `disable`, no API key, and Redis `localhost:6379`, db 0, TTL 600 |
| EnvLoader.DefaultTextsParse | internal/configs/env_loader.go:91-122 | the default texts of the Redis integers parse to their defaults |
| EnvLoader.PortsParsed | internal/configs/env_loader.go:50-75 | a port written as a decimal integer is taken as is, with no range check |
| EnvLoader.UnparsablePortsFallBack | internal/configs/env_loader.go:50-122 | each port, TTL or database number whose value does not parse falls back to its own default, whatever the other variables hold |
| EnvLoader.Overlay | internal/configs/env_loader.go:26-32 | loading a `.env` file adds its variables without overriding any already set, even to "" |
| EnvLoader.FirstLoadable | internal/configs/env_loader.go:18-32 | the chosen location is one of the candidates and loads |
| EnvLoader.FirstLoadableIsFirst | internal/configs/env_loader.go:26-32 | the chosen location loads and no earlier candidate does; none is chosen only when none loads |
| EnvLoader.LoadEnvFile | internal/configs/env_loader.go:15-38 | the candidates are tried in order, the first that loads is applied, and the result is never an error |
| EnvLoader.LoadConfig | internal/configs/env_loader.go:42-153 | the configuration is read from the environment after the `.env` overlay, and loading never fails |
| EnvLoader.MustLoad | internal/configs/env_loader.go:157-167 | a stored configuration is returned without loading; otherwise one is loaded and stored; either way the slot holds the returned configuration |
| Postgres.PortIgnored | infrastructure/database/postgres/postgres.go:28-38 | the configured port has no effect: the string always says 5432 |
| Postgres.DsnFields | infrastructure/database/postgres/postgres.go:28-38 | without spaces in the settings, the string splits at spaces into exactly the six settings in order |
| Postgres.NewPostgresConnection | infrastructure/database/postgres/postgres.go:42-84 | at most five attempts, stopping at the first success, with a sleep after every failure including the last; when all fail, the last error is wrapped; a pool failure is wrapped; otherwise the pool limits 10/100/1h are set |
| Migrations.StatusOf | internal/database/migrations/migration_manager.go:116-122 | an error is reported exactly when the `Version()` error is neither absent nor the "no version" sentinel; the error is wrapped and the version and flag are zeroed; otherwise the version and flag are passed through |
| Migrations.WrappedNilVersionBlocks | internal/database/migrations/migration_manager.go:54-57 | a wrapped "no version" error satisfies `errors.Is` but is not tolerated, because the comparison is by identity |
| Migrations.FreshStatus | internal/database/migrations/migration_manager.go:116-122 | a source that has never been migrated reports version 0, clean, no error |
| Migrations.MigrationManager.HandleDirtyState | internal/database/migrations/migration_manager.go:88-95 | resolving a dirty state always succeeds |
| Migrations.MigrationManager.RunMigrations | internal/database/migrations/migration_manager.go:52-84 | a blocking `Version()` error is wrapped and nothing is applied; `ErrNoChange` from `Up` is success with no further call; another `Up` error is wrapped; in these three cases the version and dirty flag are unchanged; otherwise the source is at the latest clean version and a failing second `Version()` is wrapped |
| Migrations.MigrationManager.RollbackLastMigration | internal/database/migrations/migration_manager.go:98-104 | exactly one `Steps(-1)`; its error is wrapped and leaves the version and dirty flag unchanged, and on success the version is one lower and clean |
| Migrations.MigrationManager.RollbackToVersion | internal/database/migrations/migration_manager.go:107-113 | exactly one `Migrate(v)`; its error is wrapped with the version number and leaves the version and dirty flag unchanged, and on success the version is `v` and clean |
| Migrations.MigrationManager.GetMigrationStatus | internal/database/migrations/migration_manager.go:116-122 | one `Version()` call, answered as `StatusOf` its reply |
| AuthCommon.NumericDate | internal/auth/jwt.go:37-38 | claim times are rounded down to a whole second, less than a second before the instant |
| AuthCommon.BearerTokenShape | internal/interfaces/http/middleware/auth_middleware.go:19-23 | a header is accepted exactly when its first six characters are "Bearer" in any case followed by a space, and the token is all that follows, further spaces included |
| AuthCommon.BearerSchemeNoSpace | internal/auth/jwt.go:78-82 | a scheme matching "Bearer" in any case has no space, so the split happens right after it |
| AuthCommon.BearerRoundTrip | internal/auth/jwt.go:78-82 | a header built as the scheme, a space and a token yields that token back |
| AuthUseCase.Login | internal/application/auth/auth_usecase.go:31-46 | succeeds exactly when the credentials are valid and the 24-hour token is issued; bad credentials give "invalid credentials" and no token is issued; an issuing error becomes "could not issue token"; success returns the token, type "Bearer" and the formatted expiry |
| AuthUseCase.LoginDiscardsIssueError | internal/application/auth/auth_usecase.go:36-39 | which error token issuing reports makes no difference to the login's result |
| AuthUseCase.LoginTokenIsBearer | internal/application/auth/auth_usecase.go:41-45 | the token type and the token, joined by a space, form a header the middleware accepts, yielding the token |
| AuthUseCase.ValidateToken | internal/application/auth/auth_usecase.go:48-54 | the subject with no error exactly when the service validates the token; otherwise "" and the service's error |
| AuthMiddleware.JWTAuth | internal/interfaces/http/middleware/auth_middleware.go:11-34 | an empty header, a malformed header and a refused token each abort with 401 and their own message; otherwise the request continues as the token's subject |
| AuthMiddleware.ContinueExactlyWhenValid | internal/interfaces/http/middleware/auth_middleware.go:11-34 | a request gets through exactly when the header is "Bearer" in any case, a space and a token the service validates, and "user" is then that token's subject |
| Jwt.Secret | internal/auth/jwt.go:21-27 | an error exactly when JWT_SECRET is unset or empty, and otherwise its value |
| Jwt.GenerateToken | internal/auth/jwt.go:29-43 | without a secret: no token, the zero time and the secret error; otherwise the claims sign the subject, the expiry and the issue time rounded to seconds, and the expiry is returned unrounded |
| Jwt.ParseToken | internal/auth/jwt.go:45-63 | a missing secret, a non-HMAC algorithm and any other failure each give an error; claims come back only from a decoded HMAC token the library verifies with the secret |
| Jwt.AuthRequired | internal/auth/jwt.go:71-94 | the same header checks as `JWTAuth`; an unparsable token aborts with 401; otherwise the request continues, with "user" set only for a non-empty subject |
| Jwt.SameHeaderChecks | internal/auth/jwt.go:73-82 | both middlewares reject a malformed header identically |
| Jwt.MissingSecretBlocksAll | internal/auth/jwt.go:21-27 | without a secret no request is let through and no token is issued |
| Jwt.IssuedTokenAuthenticates | internal/auth/jwt.go:29-94 | a token issued for a non-empty name, which the library decodes and verifies, lets its bearer through as that name |
| AppErrors.NewBadRequest | pkg/errors/errors.go:21-27 | status 400, the message and cause kept, no details |
| AppErrors.NewNotFound | pkg/errors/errors.go:30-36 | status 404, the message and cause kept, no details |
| AppErrors.NewInternalServerError | pkg/errors/errors.go:39-45 | status 500, the message and cause kept, no details |
| AppErrors.NewExternalAPIError | pkg/errors/errors.go:48-60 | status 0 becomes 502 and any other status is kept, so the status is never 0 |
| AppErrors.ValidationError | pkg/errors/errors.go:63-69 | status 400 with the field details and no cause |
| AppErrors.ExternalStatusSettled | internal/interfaces/http/controller/weather_controller.go:77 | the status defaulting is idempotent, and an explicit 500 stays 500 |
| AppErrors.TextDeterminesMessageAndCode | pkg/errors/errors.go:16-18 | two errors with the same text have the same message and code |
| AppErrors.StatusTexts | pkg/errors/errors.go:16-18 | the fixed status codes print as 400, 404, 500 and 502 |
| AppErrors.ConstructorTexts | pkg/errors/errors.go:16-69 | what each constructor's error reads as: the message and "(code: N)" |
| Validator.Utf8Length | pkg/validator/validator.go:36 | Go's `len` counts UTF-8 bytes: between one and four per character |
| Validator.AsciiCountry | pkg/validator/validator.go:33-37 | for ASCII text the `country` rule accepts exactly 2 to 56 characters |
| Validator.BytesNotCharacters | pkg/validator/validator.go:36 | the rule counts bytes: one two-byte character passes and 19 three-byte characters fail |
| Validator.AsciiLength | pkg/validator/validator.go:36 | ASCII text takes one byte per character |
| Validator.ThreeByteLength | pkg/validator/validator.go:36 | characters from U+0800 to U+FFFF take three bytes each |
| Validator.TagName | pkg/validator/validator.go:22-28 | the reported name has no comma, is a prefix of the tag or empty, and is the whole tag when the tag has no options and is not "-" |
| Validator.TagNameIgnoresOptions | pkg/validator/validator.go:23 | the options after the comma do not change the name |
| Validator.MessageAliases | pkg/validator/validator.go:59-82 | "min" reads like "gte" and "max" like "lte"; a rule reads "Invalid value" exactly when it has no message of its own |
| Validator.ComparisonMessagesEndWithParam | pkg/validator/validator.go:63-78 | the comparison rules' messages end with the rule's parameter |
| Validator.ErrorsMapKeys | pkg/validator/validator.go:46-49 | the error map has exactly the failed fields as keys |
| Validator.ErrorsMapLastWins | pkg/validator/validator.go:46-49 | a field's message is that of its last failed rule |
| Validator.ValidateRequest | pkg/validator/validator.go:40-56 | with no validation engine or no failed rule: no map and no error; otherwise the field map and a "Validation failed" error carrying it |
| Formatter.LevelColorsDistinct | pkg/logger/formatter.go:35-49 | two levels share a colour exactly when both are Debug or Trace, or both are Panic or Fatal |
| Formatter.ParseCallerRoundTrip | pkg/logger/formatter.go:89-95 | a file and a line without colons, joined by one, are split back |
| Formatter.ParseCallerSound | pkg/logger/formatter.go:89-95 | every answer other than the fallback comes from exactly such a caller |
| Formatter.NoColonUnknown | pkg/logger/formatter.go:90-92 | a caller without a colon gives ("unknown", "0") |
| Formatter.TwoColonsUnknown | pkg/logger/formatter.go:90-92 | so does a caller with two colons or more |
| Formatter.MessageOf | pkg/logger/formatter.go:52-57 | the "message" field when it holds a string, otherwise the entry's message |
| Formatter.FileLinkIff | pkg/logger/formatter.go:59-65 | there is a link exactly when "caller" is a string whose parsed file is not "unknown", and it then names that file and line |
| Formatter.FormatFrames | pkg/logger/formatter.go:68-84 | every line starts with its level's colour and ends with the reset code and a newline |
| Formatter.WarnTag | pkg/logger/formatter.go:72 | a warning line is tagged WARNING |
| Logger.MergedKeys | pkg/logger/logger.go:65-69 | the merge holds exactly the keys of the maps passed |
| Logger.MergedLastWins | pkg/logger/logger.go:65-69 | a key's value comes from the last map that holds it |
| Logger.CreateMap | pkg/logger/logger.go:63-73 | every passed map is copied in order, later maps overriding earlier ones, and then "caller" and "message" are set over whatever the maps held |
| Logger.CopyFields | pkg/logger/logger.go:66-68 | after copying, the map holds every key of both, with the copied map's value where both have the key |
| Logger.LoggedLineShowsCaller | pkg/logger/logger.go:40 | the logger's caller string and message fields make the formatter show the logged message and link to the calling file and line, whatever else the fields hold |

## Left out

- Connection, model and adapter code around the repository and the cache (gorm, go-redis, JSON encoding) is not part of this model. Their behaviour as the services see it is modelled by `Collaborators`. Cache TTLs and expiry are not modelled.
- FindLatestByCity: the Postgres query filters on a `city_name` column, while gorm's default naming maps the model's `City` field to `city`. The model follows the repository interface's intent (the city's latest row); the query's column name is not modelled and may not match the table.
- Context cancellation, concurrency, and the `sync.Once` in the logger are not modelled.
- Floating-point values are `real`: NaN and negative zero, which Go's `!= 0` treats specially, are not modelled.
- `Strs.Atoi` does not model the 64-bit range check of `strconv.Atoi`. An out-of-range port text parses here but falls back to the default in Go.
- `Strs.EqualFold` folds ASCII letters only. Go's Unicode folding also matches "K" (U+212A) with "k", and no letter of "Bearer" has such a partner.
- RFC 3339 formatting of the login expiry is a parameter.
- Each service operation takes one clock reading `now`. The Go code reads its clock twice for a new record's creation and update times.
- New UUIDs are a parameter, and the uniqueness of generated UUIDs is not modelled.
- Logging, sleeping and `logger.Fatalf` are not modelled. Log calls appear only as discarded errors, and sleeps are counted.
- WeatherMapper: Go passes pointers and builds new structs, and the model works on values. No aliasing exists to model.
- Jwt.ParseToken: the JWT library wraps the key function's "unexpected signing method" error and its own decoding errors. The model returns them unwrapped. Every caller only tests for an error.
- The deprecated `ValidateToken` of the JWT helpers only forwards to `parseToken`, so it is modelled by `Jwt.ParseToken` itself.
- Validator.ValidateRequest: an error from the engine that is not a list of field errors makes Go panic. The model takes the engine's answer as that list.
- The modelled repository never answers "no error" without a record. So the `w != nil` check in `GetWeatherByID` of the cache-aside service always holds, and the nil record the Go repository could in principle return is not modelled.
- `NewMigrateInstance` and the `DBInstance` driver setup are library calls and are not modelled.
- The migration source is a scripted stand-in. Stepping below the first migration leaves no version, and a failed `Up` leaves the version and dirty flag unchanged.
- Validator: registering the custom rule and the tag-name function (`Initialize`) is not modelled. The validation engine itself is not modelled; its answer is the list of field errors.
- Formatter: level names follow the logging library (`warning` for Warn). `Format` returns text, not bytes, and never fails.
- The logger's caller discovery through `runtime.Caller`, and the level-specific wrappers around `createMap`, are not modelled. Only the caller string's shape (`CallerString`) and the field map are modelled.
- Object-dumping helpers in the logger (`LogObject` and its variants) render values with indented JSON encoding, or an `Error formatting object: ...` text when encoding fails. JSON encoding is not modelled, so these helpers are not modelled.
