# Service bootstrap: leveled logger and layered configuration

This project models the two bootstrap packages of an analytics service:

- `pkg/logger` builds a structured logger from a level name and an optional output file.
  - `parseLevel` maps five case-sensitive names to levels and silently falls back to `info`.
  - `NewLogger` writes to standard error only when the path is empty. Otherwise it tees an
    append-mode file with standard error, or fails when the file cannot be opened.
  - Every sink is gated on the same threshold.
  - `Debug`/`Info`/`Warn`/`Error`/`Fatal` emit through that gate. `Fatal` then ends the process.
  - `With` derives a new logger whose context fields extend the receiver's.
- `pkg/config` resolves a typed `Config` from three layers.
  - The layers are a sixteen-entry defaults table, an optional YAML file named `config`
    (searched in the caller's directory, then in `.`), and environment variables.
  - An environment variable's name is the key with `.` replaced by `_`.
  - The environment beats the file, and the file beats the defaults.
  - `Unmarshal` only reads keys that have a default or a file entry. So an environment
    variable alone cannot set a key that has neither (see "## Findings").
  - A missing file is tolerated. Any other read or parse error is fatal, and so is a
    value that does not convert to its field's type.

Files:

- `wrappers.dfy` (module `Wrappers`): the `Option` and `Result` types.
- `logger.dfy` (module `Logger`):
  - the `Level` order, given by zapcore's numeric codes;
  - `ParseLevel`;
  - the `Sink`, `Process` and `ZapLogger` classes;
  - `NewLogger`.

  A sink is the sequence of records appended to it. Process exit is a ghost flag that
  `Fatal` sets.
- `config.dfy` (module `Config`):
  - the `Viper` class, whose methods update the instance's store in place, as `LoadConfig` does;
  - `SetDefaults`;
  - the `LoadConfig` method, proved equal to the pure `Load`;
  - the precedence and decoding lemmas;
  - a completed defaults table (`CompleteDefaults`, `CorrectedLoad`) for the finding below.

  The file system (`Disk`) and the process environment (`Env`) are inputs. So are the
  weakly typed conversions (`Coercion`), whose string-to-int conversion is partial.

Two points where zap's behaviour is easy to misread:

- zap's `Fatal` does not bypass the threshold. It writes through the cores that accept it,
  then exits. `parseLevel` never yields a level above `fatal`, so a fatal record is always
  written (`Logger.FatalAlwaysEnabled`, `Logger.ZapLogger.Fatal`).
- zap does not resolve collisions between context fields and call-site fields. A record
  carries the logger's context fields followed by the call's fields (`Logger.ZapLogger.RecordOf`).

## Model

| member | source | states |
|---|---|---|
| `Logger.Enabled` | pkg/logger/logger.go:52-56 | a core admits a level exactly when it is at or above the core's threshold in the order debug, info, warn, error, fatal; zapcore's numeric codes give that order |
| `Logger.EnabledIsTotalOrder` | pkg/logger/logger.go:52-56 | the gate is the total order debug < info < warn < error < fatal |
| `Logger.ParseLevel` | pkg/logger/logger.go:87-101 | exactly "debug", "warn", "error" and "fatal" yield their levels; every other string, "info" included, yields info |
| `Logger.UnknownNamesMeanInfo` | pkg/logger/logger.go:99-101 | "trace", "WARN" and "" configure info: debug is dropped, info through fatal pass |
| `Logger.FatalAlwaysEnabled` | pkg/logger/logger.go:87-101 | fatal passes every gate, so it passes every threshold parseLevel can return |
| `Logger.Gate` | pkg/logger/logger.go:52-75 | a core passes on at most the one record, unchanged, and passes it exactly when its level is at or above the threshold |
| `Logger.WarnThreshold` | pkg/logger/logger.go:93-94 | with "warn", debug and info records are dropped and warn, error and fatal records pass unchanged |
| `Logger.Sink.Write` | pkg/logger/logger.go:54 | a write appends the record to the stream and keeps everything written before |
| `Logger.NewLogger` | pkg/logger/logger.go:26-84 | fails exactly when the path is non-empty and the open fails, returning that path and cause (no stderr-only fallback); the threshold is ParseLevel(level); an empty path gives one sink (stderr, no file), a non-empty one two (a fresh, empty file sink for that path and stderr) |
| `Logger.ZapLogger.constructor` | pkg/logger/logger.go:79-83 | the logger holds the given threshold, context, file and process, and is well formed when stderr is standard error and a file sink is a distinct file |
| `Logger.ZapLogger.Emit` | pkg/logger/logger.go:49-76 | on a process that has not exited, every sink of the logger gains the record (context fields then call fields) if its level passes the shared threshold, and none gains anything otherwise |
| `Logger.ZapLogger.Debug` | pkg/logger/logger.go:105-107 | every sink gains the debug record exactly when the threshold admits debug |
| `Logger.ZapLogger.Info` | pkg/logger/logger.go:110-112 | every sink gains the info record exactly when the threshold admits info |
| `Logger.ZapLogger.Warn` | pkg/logger/logger.go:115-117 | every sink gains the warn record exactly when the threshold admits warn |
| `Logger.ZapLogger.Error` | pkg/logger/logger.go:120-122 | every sink gains the error record exactly when the threshold admits error |
| `Logger.ZapLogger.Fatal` | pkg/logger/logger.go:125-127 | the fatal record is gated like the others, the gate always admits it, and afterwards the process has exited, so no later emit can be called |
| `Logger.ZapLogger.With` | pkg/logger/logger.go:130-133 | a fresh logger with the same threshold, file, process and sinks, whose context is the receiver's followed by the new fields; its records equal the receiver's with the new fields placed before the call's; the receiver is untouched |
| `Config.EnvKey` | pkg/config/config.go:81 | the environment name has the key's length, has `_` wherever the key has `.`, agrees with the key elsewhere, and contains no `.` |
| `Config.Defaults` | pkg/config/config.go:104-132 | a key has a default exactly when it is not the database token, the database password, the redis password or the jwt secret, and every default already has its field's type |
| `Config.Store.Get` | pkg/config/config.go:78-81 | a key resolves to some value exactly when the environment (if enabled), the file or the defaults hold it |
| `Config.Precedence` | pkg/config/config.go:78-81 | viper's lookup equals the override-merge of the defaults, the file re-keyed by name and the enabled environment, each layer replacing the ones below |
| `Config.MergedLookup` | pkg/config/config.go:78-81 | looking a key up in the merge asks the enabled environment, then the file, then the defaults |
| `Config.Store.Visible` | pkg/config/config.go:95 | `Unmarshal` reads a value for a key exactly when the key has a default or a file entry, and that value is the looked-up one |
| `Config.FindConfigFile` | pkg/config/config.go:75-76 | the result is the first directory of the search path that holds a config file, and there is none exactly when no directory on the path holds one |
| `Config.ReadConfigFile` | pkg/config/config.go:84 | the read reports "not found" exactly when no directory on the search path holds a config file |
| `Config.SearchOrder` | pkg/config/config.go:75-76 | the file in configPath is used if there is one, else the one in ".", else none is found |
| `Config.Viper.constructor` | pkg/config/config.go:67 | a new instance has no defaults, no file layer, no name, type or search path, and environment lookup off |
| `Config.Viper.SetDefault` | pkg/config/config.go:106 | the defaults layer gains (or replaces) the one entry |
| `Config.Viper.SetConfigName` | pkg/config/config.go:73 | records the file name |
| `Config.Viper.SetConfigType` | pkg/config/config.go:74 | records the codec |
| `Config.Viper.AddConfigPath` | pkg/config/config.go:75-76 | appends the directory to the end of the search path |
| `Config.Viper.AutomaticEnv` | pkg/config/config.go:80 | turns on environment lookup |
| `Config.Viper.SetEnvKeyReplacer` | pkg/config/config.go:81 | turns on the "." to "_" replacement of environment names |
| `Config.Viper.ReadInConfig` | pkg/config/config.go:84 | on success the found file's entries become the file layer and no error is returned; on any error the file layer is unchanged and the error is returned |
| `Config.SetDefaults` | pkg/config/config.go:104-132 | the defaults layer afterwards is the previous one overridden by the sixteen-entry table |
| `Config.DecodeInt` | pkg/config/config.go:94-98 | an int field fails exactly when its value is a list or a text that does not convert, with an error naming the key and the value; absent reads as 0, an int is kept, a converted text gives its conversion |
| `Config.DecodeString` | pkg/config/config.go:94-98 | a string field fails exactly when its value is a list, with an error naming the key and the value; absent reads as "", a text is kept |
| `Config.DecodeList` | pkg/config/config.go:94-98 | the list field never fails: absent reads as [], a list is kept, a text is split |
| `Config.DecodeServer` | pkg/config/config.go:21-26 | a failure names a server field whose value does not convert |
| `Config.DecodeDatabase` | pkg/config/config.go:29-35 | a failure names a database field whose value does not convert |
| `Config.DecodeRedis` | pkg/config/config.go:38-43 | a failure names a redis field whose value does not convert |
| `Config.DecodeKafka` | pkg/config/config.go:46-50 | a failure names a kafka field whose value does not convert |
| `Config.DecodeLogging` | pkg/config/config.go:53-56 | a failure names a logging field whose value does not convert |
| `Config.DecodeJWT` | pkg/config/config.go:59-62 | a failure names a jwt field whose value does not convert |
| `Config.Decode` | pkg/config/config.go:94-98 | a failure of `Unmarshal` names a field whose value, as read, does not convert to its declared type, with that value |
| `Config.Layers` | pkg/config/config.go:84-91 | the read fails exactly on an error other than a missing file, and returns that error; otherwise the store holds the defaults table, the found file's entries (none when missing), the environment, and both environment settings on |
| `Config.Load` | pkg/config/config.go:84-100 | a read error is returned exactly when the read fails, and it is never "not found"; a decode error names a field whose value does not convert |
| `Config.DefaultServer` | pkg/config/config.go:106-109 | decoding a store that shows the defaults alone gives port 8080, timeouts 10 and 10, host "0.0.0.0" |
| `Config.DefaultDatabase` | pkg/config/config.go:112-114 | decoding a store that shows the defaults alone gives the URL "http://localhost:8086", org "analytics", bucket "metrics", and "" for token and password |
| `Config.DefaultRedis` | pkg/config/config.go:117-119 | decoding a store that shows the defaults alone gives host "localhost", port 6379, password "" and db 0 |
| `Config.DefaultKafka` | pkg/config/config.go:122-124 | decoding a store that shows the defaults alone gives brokers ["localhost:9092"], topic "analytics", group "analytics-group" |
| `Config.DefaultLogging` | pkg/config/config.go:127-128 | decoding a store that shows the defaults alone gives level "info" and file "" |
| `Config.DefaultJWT` | pkg/config/config.go:131 | decoding a store that shows the defaults alone gives secret "" and 60 minutes |
| `Config.DecodesToDefaults` | pkg/config/config.go:104-132 | a store that shows the defaults alone decodes to the defaults, with "" for the four fields that have no default |
| `Config.ServerIsFieldwise` | pkg/config/config.go:21-26 | the server group decodes exactly when its four fields do; each field then holds its key's value, and an error names a failing field of the group |
| `Config.DatabaseIsFieldwise` | pkg/config/config.go:29-35 | the same for the five database fields |
| `Config.RedisIsFieldwise` | pkg/config/config.go:38-43 | the same for the four redis fields |
| `Config.KafkaIsFieldwise` | pkg/config/config.go:46-50 | the same for the three kafka fields |
| `Config.LoggingIsFieldwise` | pkg/config/config.go:53-56 | the same for the two logging fields |
| `Config.JWTIsFieldwise` | pkg/config/config.go:59-62 | the same for the two jwt fields |
| `Config.DecodeComposition` | pkg/config/config.go:10-18 | Config decodes exactly when its six groups do, holds their values, and otherwise fails with one group's error |
| `Config.DecodeIsFieldwise` | pkg/config/config.go:94-98 | Unmarshal succeeds exactly when every field converts to its declared type; each field then holds the value read for its key; otherwise the error names a field that does not convert, with its raw value |
| `Config.WellTypedDecodes` | pkg/config/config.go:94-98 | when every value read already has its field's type, Unmarshal succeeds |
| `Config.LoadWithoutFileOrEnv` | pkg/config/config.go:84-100 | with no config file in either directory and an empty environment, LoadConfig returns exactly the defaults, with "" for the four fields that have no default |
| `Config.ResolvedValue` | pkg/config/config.go:70-98 | the value LoadConfig looks up for a key is its entry in the override-merge of the defaults table, the found file and the environment; Unmarshal reads it only for a key with a default or a file entry |
| `Config.MissingFileIsTolerated` | pkg/config/config.go:84-91 | with no file in either directory, resolution goes on over the defaults and the environment, and any failure is a decode failure |
| `Config.FileErrorIsFatal` | pkg/config/config.go:85-88 | a found file that cannot be read, or cannot be parsed, makes LoadConfig fail with that error and no config |
| `Config.LoadOutcome` | pkg/config/config.go:93-100 | LoadConfig succeeds exactly when the read gives no error other than a missing file and every field converts; the Config then holds the value read for each key; a decode failure is returned wrapped, with no config |
| `Config.FieldFromText` | pkg/config/config.go:94-98 | a field decoded from a text: a string field holds the text, an int field its conversion, the list field its split |
| `Config.StoreEnvOverrides` | pkg/config/config.go:78-98 | with the environment on and the replacer set, a key with a default or a file entry takes its field from its environment variable: the text, its conversion or its split |
| `Config.EnvOverrides` | pkg/config/config.go:78-81 | for a key with a default or a file entry, its environment variable decides its field: a string field takes the text, an int field the text's conversion, the list field the text split |
| `Config.UnconvertibleEnvIsFatal` | pkg/config/config.go:95-98 | an int field whose environment text does not convert makes LoadConfig fail with a decode error |
| `Config.UnsetWithoutDefaultIsZero` | pkg/config/config.go:94-95 | the token, password, redis password and jwt secret are "" unless the file sets them, whatever the environment holds |
| `Config.LoadConfig` | pkg/config/config.go:65-101 | the step-by-step run on a fresh viper instance returns exactly Load: the defaults, search path, environment settings, read triage and decode in the order of the code |
| `Config.JWTSecretVariable` | pkg/config/config.go:81 | viper consults `jwt_secret` for jwt.secret |
| `Config.OnlyJWTSecretVariable` | pkg/config/config.go:81 | no other key's environment name is `jwt_secret` |
| `Config.EnvOnlySecretIsIgnored` | pkg/config/config.go:78-95 | with no config file and only JWT_SECRET set, LoadConfig returns the defaults, with an empty jwt secret |
| `Config.CompleteDefaults` | pkg/config/config.go:104-132 | the completed table has every key, agrees with setDefaults where it has an entry, and every value has its field's type |
| `Config.SecretOnlyStoreIsWellTyped` | pkg/config/config.go:78-95 | under the completed table and JWT_SECRET alone, every value read has its field's type |
| `Config.SecretOnlyJWT` | pkg/config/config.go:59-62 | under the completed table and JWT_SECRET alone, the jwt group decodes to secret "s3cr3t" and 60 minutes |
| `Config.CorrectedSecretOnlyLoads` | pkg/config/config.go:84-100 | under the completed table, with no config file and JWT_SECRET alone, LoadConfig succeeds with the decoded store |
| `Config.CorrectedReadsEnvSecret` | pkg/config/config.go:78-95 | under the completed table, the same input yields the environment's jwt secret |
| `Config.CorrectedEnvOverrides` | pkg/config/config.go:78-81 | under the completed table the environment variable of every key decides its field |

## Left out

- zap's encoding is left out: the JSON layout, ISO8601 times, caller, logger name and
  stack traces at error and above. A record is an abstract (level, message, fields) value.
- Real I/O is left out. The outcome of `os.OpenFile` is a parameter of `NewLogger`, and
  writing to a sink appends to a sequence. A file sink holds what this logger appended,
  not what the file held before it was opened.
- Process termination in `Fatal` is a ghost flag. The flush of the sinks before exit is
  not modelled.
- Serialisation of concurrent writes to the shared sinks is concurrency, so it is not modelled.
- zap's `With` returns its receiver unchanged when given no fields; the model always
  returns a fresh logger, which behaves identically.
- YAML parsing is left out. The file system is a map from directory to what reading the
  config file there gives: unreadable, malformed, or a parsed flat layer of dotted keys.
  How viper tries file extensions and absolutises search paths is not modelled.
  `SetConfigName` and `SetConfigType` are recorded but do not change the search.
- viper's key handling is left out: it stores keys nested and in lower case, and matches
  them case-insensitively. The model matches dotted keys exactly, and Config's twenty
  keys are a datatype.
- viper's environment case folding is left out. viper upper-cases the replaced key
  (`SERVER_READTIMEOUT`); `Env` is keyed by `EnvKey` of the dotted name instead
  (`server_readTimeout`). viper treats an empty variable as unset, and this is not
  modelled.
- mapstructure's conversions are abstract (`Coercion`). Go's 64-bit `int` width is not
  modelled.
- Config.Decode: when several fields fail, mapstructure reports them all in one error.
  The model reports the first failing field in declaration order. Success and failure
  agree.
- The `fmt.Println` notice when the file is missing is console output, so it is not modelled.

## Findings

| source | as written | input that shows it | evidently intended | confidence | as-written member | corrected member |
|---|---|---|---|---|---|---|
| pkg/config/config.go:78-95 | `AutomaticEnv` is meant to let environment variables take precedence (comment at line 79), but `v.Unmarshal` reads only viper's AllKeys(), the keys with a default or a file entry. `jwt.secret`, `database.influxToken`, `database.influxPassword` and `redis.password` have no default (lines 104-132). | no config file and only `JWT_SECRET=s3cr3t` in the environment: `JWT.Secret` is "" | every field can be set from the environment, e.g. by giving the four keys the default "" | medium; not executed | `Config.EnvOnlySecretIsIgnored` | `Config.CorrectedEnvOverrides` |

`LoadConfig`, `Load` and the lemmas about them model the code as written. `CorrectedLoad`
is `Load` over `CompleteDefaults`, which adds the default "" for the four keys.
`CorrectedReadsEnvSecret` shows that it gives the environment's secret on the same input.
