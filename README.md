# ts-template core, modelled in Dafny

This project models the runtime logic of a small TypeScript starter template:

- **Application error** (`AppErrors`, `app_error.dfy`). An `AppError` is an immutable record of name, message, code and status code. The constructor defaults the code to `UNKNOWN` and the status to 500. Two factories build validation errors (400) and not-found errors (404).
- **Configuration** (`Config`, `config.dfy`). The `config` record is built from three environment variables: `LOG_LEVEL`, `NODE_ENV` and `SUPER_SECRETIVE_SECRET`. The log-level validator lower-cases `LOG_LEVEL` and accepts `debug`, `info`, `warn` or `error`; anything else gives `info`. `NODE_ENV` defaults to `development`. The three environment flags compare `nodeEnv` with a literal.
- **Logger** (`Logger`, `logger.dfy`). The gate `shouldLog` ranks levels by their position in `error, warn, info, debug`. It lets a message through when the message's rank is at most the configured level's rank. Each logging call is modelled as the tagged line it would write and the console stream it would use, or `None` when the gate holds it back.
- **Greeter** (`Greeter`, `greeter.dfy`). `greet` places a name inside a fixed sentence.

Two helper modules support these. `Wrappers` holds `Option`, which stands for JavaScript's `undefined`. `Builtins` models the JavaScript built-ins the core calls: `toLowerCase` and `indexOf`.

Environment variables are parameters: an `Environment` value holds each variable as `Option<string>`. The logger receives the configured level as a parameter instead of reading the module-level `config`.

One test expects at least one environment flag to be true (tests/integration/config.test.ts:26-31). The code does not guarantee that. `Config.SomeFlagIff` proves that some flag is set exactly when `NODE_ENV` is unset, empty, `development`, `production` or `test`. So `NODE_ENV=staging` sets no flag.

## Model

| member | source | states |
|---|---|---|
| Builtins.LowerChar | src/config/index.ts:12 | upper-case ASCII letters move 32 code points up; every other character is unchanged; the result is never upper-case |
| Builtins.ToLower | src/config/index.ts:12 | the ASCII lowering keeps the length, lowers each character in place and leaves no upper-case letter |
| Builtins.ToLowerOfLowerCase | src/config/index.ts:12-14 | lowering a string with no upper-case letter returns it unchanged |
| Builtins.ToLowerIdempotent | src/config/index.ts:12 | lowering twice equals lowering once |
| Builtins.IndexOf | src/utils/logger.ts:19-20 | `indexOf` is -1 exactly when the value is absent; otherwise it is the first position holding the value |
| AppErrors.NewAppError | src/errors/AppError.ts:8-12 | the constructor stores the message, code and status as given; an omitted code is `UNKNOWN`; an omitted status is 500; the name is always `AppError` |
| AppErrors.CreateValidationError | src/errors/AppError.ts:24-26 | the result has the given message, code `VALIDATION_ERROR` and status 400 |
| AppErrors.CreateNotFoundError | src/errors/AppError.ts:31-33 | the result has the given message, code `NOT_FOUND` and status 404 |
| AppErrors.MessageOnlyDefaults | src/errors/AppError.ts:8 | a message-only error has code `UNKNOWN` and status 500, a server status; passing the defaults explicitly gives the same value |
| AppErrors.NewAppErrorInjective | src/errors/AppError.ts:8-12 | two constructed errors are equal iff they were built from the same message, code and status |
| AppErrors.NameIsFixed | src/errors/AppError.ts:10 | every constructed error, from the constructor or a factory, is named `AppError` |
| AppErrors.FactoriesDistinctClientErrors | src/errors/AppError.ts:24-33 | the two factories never give the same code or the same error; neither gives `UNKNOWN`; both statuses are 4xx |
| Config.GetLogLevel | src/config/index.ts:11-17 | the result is always one of the four level names; unset or unrecognised input gives `info`; a recognised input gives its lower-cased form |
| Config.LoadConfig | src/config/index.ts:19-23 | `nodeEnv` is NODE_ENV when non-empty, else `development`, so it is never empty; `secretKey` passes the secret through, possibly unset; `logLevel` is the validated level |
| Config.LevelNamesLowerCase | src/config/index.ts:13 | every accepted level name is already lower-case |
| Config.EmptyLogLevelIsInfo | src/config/index.ts:13-16 | an empty LOG_LEVEL gives `info` |
| Config.GetLogLevelCaseInsensitive | src/config/index.ts:12-14 | any spelling whose lower-case form is a level name selects that level |
| Config.GetLogLevelSameUpToCase | src/config/index.ts:12-14 | two inputs with the same lower-case form give the same level |
| Config.GetLogLevelIdempotent | src/config/index.ts:12-14 | feeding the result back in as LOG_LEVEL returns the same level |
| Config.GetLogLevelAcceptsEachName | src/config/index.ts:13-14 | each level name written exactly is accepted unchanged |
| Config.GetLogLevelUpperCaseExample | src/config/index.ts:12-14 | `DEBUG` gives `debug` |
| Config.GetLogLevelUnknownExample | src/config/index.ts:16 | `verbose` gives `info` |
| Config.IsDevelopment | src/config/index.ts:26 | `isDevelopment` holds only when `nodeEnv` is neither `production` nor `test` |
| Config.IsProduction | src/config/index.ts:27 | `isProduction` holds only when `nodeEnv` is neither `development` nor `test` |
| Config.IsTest | src/config/index.ts:28 | `isTest` holds only when `nodeEnv` is neither `development` nor `production` |
| Config.AtMostOneFlag | src/config/index.ts:26-28 | no two of `isDevelopment`, `isProduction`, `isTest` are true together |
| Config.FlagsFollowNodeEnv | src/config/index.ts:20-28 | each flag is true iff NODE_ENV is its literal; `isDevelopment` is also true when NODE_ENV is unset or empty |
| Config.SomeFlagIff | src/config/index.ts:20-28 | some flag is true iff NODE_ENV is unset, empty, `development`, `production` or `test` |
| Logger.ShouldLog | src/utils/logger.ts:17-22 | between two known levels, a message passes iff its level comes no later in `error, warn, info, debug` than the configured one; a level missing from the list always passes |
| Logger.Info | src/utils/logger.ts:24-28 | writes `[INFO] ` plus the message to `console.log` iff the configured level is `info` or `debug` |
| Logger.Error | src/utils/logger.ts:30-34 | writes `[ERROR] ` plus the message to `console.error` at every configured level |
| Logger.Warn | src/utils/logger.ts:36-40 | writes `[WARN] ` plus the message to `console.warn` iff the configured level is not `error` |
| Logger.Debug | src/utils/logger.ts:42-46 | writes `[DEBUG] ` plus the message to `console.log` iff the configured level is `debug` |
| Logger.ShouldLogMatchesVerbosity | src/utils/logger.ts:17-22 | the gate agrees with an independent ranking error 0, warn 1, info 2, debug 3 |
| Logger.LevelListsAgree | src/utils/logger.ts:18 | the logger's level list and the validator's level list hold the same four names |
| Logger.ShouldLogReflexive | src/utils/logger.ts:21 | every configured level lets its own messages through |
| Logger.ShouldLogMonotone | src/utils/logger.ts:21 | a message written at one configured level is written at every more verbose configured level |
| Greeter.Greet | src/utils/greeter.ts:13-14 | the greeting is `Hello, `, then the name, then `! Welcome to TypeScript with ESNext modules!`; its length is the name's length plus 51 |
| Greeter.GreetContainsName | tests/unit/utils.test.ts:17-20 | the greeting contains the name |
| Greeter.GreetInjective | src/utils/greeter.ts:14 | different names give different greetings |
| Greeter.GreetEmptyName | tests/unit/utils.test.ts:22-25 | the greeting for the empty name contains `Hello, !` |

## Left out

- Console output. The logger's `console.log`, `console.error` and `console.warn` calls are I/O. The model returns the line and the stream instead.
- The logger's second console argument (`data`, or the `Error` for `error`). It is an untyped value whose printed form depends on the console.
- Reading `process.env` and loading `.env` files. These are environment I/O, so the variables are parameters.
- `Error.captureStackTrace` and the `stack` field. They are a V8 runtime side effect with no stateable contract.
- `AppErrors.NewAppError`: the model's errors are immutable values. In JavaScript, `name` and `message` are ordinary writable `Error` properties. Only `code` and `statusCode` are `readonly`. Reassigning `name` or `message` after construction is not modelled.
- `AppErrors.NewAppError`: `statusCode` is a JavaScript number, a double. The model uses an unbounded integer. Fractional and non-finite statuses are not modelled.
- `Builtins.ToLower`: only ASCII letters are lowered. Full Unicode case mapping is not modelled. Two non-ASCII characters lower to ASCII letters: U+0130 lowers to `i` followed by U+0307, and U+212A lowers to `k`. U+0307 stays in the lowered string, and no level name contains `k`. So neither can produce one of the four level names, and `Config.GetLogLevel` gives the same results either way.
- The `ConsoleLogger` class, its exported instance and the `Logger` interface. The class has no fields, so its methods are modelled as functions.
- tests/unit/errors.test.ts calls a richer error API that src/errors/AppError.ts does not define: `AppError.validation`, `ErrorCodes`, `isAppError`, `toAppError`, `custom` and `toObject`. The model follows src/errors/AppError.ts, which has the constructor and its two factories.
- src/index.ts. It prints and calls a foreign hashing library.
- tests/setup.ts. It holds random test-data generators and test hooks.
- src/constants.ts, the type-only files under src/types, and the build and test configuration. None of them has runtime logic.
