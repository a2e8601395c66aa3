# pgzx option resolution and run decisions, in Dafny

pgzx is a command-line launcher. It connects a `zx` scripting session to a
PostgreSQL database through the `postgres` driver, then imports a user script,
optionally inside one transaction. This project models the decision logic of
its `index.js`:

- **Option resolution (`parseOptions`).** This turns the tokenized argument
  map and the `PGHOST` environment variable into the resolved options record.
  It covers:
  - the split of the positional values into connection string and script;
  - the `X` and `connect` defaults;
  - the pool options built from the `sql-*` flags, including the fold over
    repeated `sql-var k=v` entries;
  - the TLS token, including the `heroku` host-suffix heuristic, and its
    mapping to the driver's `ssl` option;
  - the argument tuple `pg` for the driver;
  - the final record `{pg, begin, connectionString, script, ...args, ...rest}`.
- **Run decisions in `main`.** These are the execution wrapper (`Direct` or
  `Transactional`, through `sql.begin`) and the path the script is imported
  from. The path comes from a prefix-ordered classification (remote URL,
  absolute path, `file:///` URL, relative path). A missing script ends in
  `RequiredScriptMissingError`.

Files:

- `js_values.dfy` (module `JsValues`): the JavaScript values the code
  observes. It defines truthiness, loose equality against the string literals
  the code uses, destructuring defaults, `filter(Boolean)`, and the failures
  (the TypeErrors the code runs into and its own error class). Property reads
  `o[k]` are the definition `Get`, which gives `undefined` for a missing key.
  That is JavaScript's meaning of a read, so `Get` has no contract and no row.
- `strings.dfy` (module `Strings`): `startsWith`, `endsWith` and `split` with a
  one-character separator, with the round trips between split and join.
- `option_resolver.dfy` (module `OptionResolver`): `parseOptions`. Its pure
  steps are functions. The steps the code performs by updating variables are
  methods, each proved equal to the specification function:
  - the `reduce` fold is `BuildConnection`;
  - the `for … of` loop is `PutDefined`;
  - the `let` reassignments of the `heroku` block are `ResolveTls`;
  - the whole function is `ParseOptions`, equal to `Options`.
- `execution_driver.dfy` (module `ExecutionDriver`): the wrapper choice, the
  script-path method, and end-to-end lemmas that link the run decisions to the
  arguments.

Foreign calls are parameters:

- `JSON.parse` is `parse: string -> Option<Value>`, with `None` for a parse
  that throws.
- `URL.fileURLToPath` is `fileUrlToPath: string -> Option<string>`, with
  `None` for the TypeError it throws on a `file:` URL it cannot turn into a
  path. An example is an encoded `/` in `file:///a%2Fb`.
- `PATH.join` is `join`, and `process.cwd()` is `cwd`.
- `process.env.PGHOST` is `pghost: Option<string>`.

Behaviour of the code that is easy to misread:

- **Empty host list.** In the `heroku` heuristic, an empty host list gives
  `'no-reject'`, because `every` holds of an empty list. It does not give
  "TLS disabled". The host list is empty only when `PGHOST` is unset or empty
  and the connection string is falsy, because `"".split(',')` is `[""]`.
- **Two pool keys are always present.** `no_prepare` and `connection` are
  always in the pool options. Only `max`, `idle_timeout` and `connect_timeout`
  depend on whether their flag was given.
- **Host segment.** It is the text between the first `@` and the next `@`,
  cut at the first `/`. It is not simply "everything between `@` and `/`".
- **Falsy second positional.** A falsy second positional value, such as
  `""`, also makes the first value the script.
- **Arguments override computed fields.** Because `...args` is spread last,
  an argument named `pg`, `begin`, `script` or `connectionString` replaces the
  computed field.
- **Connection before script check.** The connection is created
  (index.js:152-157) before the script is checked (index.js:182-189). So the
  missing-script error comes only after the connection has been set up. The
  connection itself is not part of this model.

## Model

| member | source | states |
|---|---|---|
| `Strings.Split` | index.js:93 | `split` with a one-character separator gives at least one piece, and no piece contains the separator |
| `Strings.JoinSplit` | index.js:93 | joining the pieces of a split with the separator gives back the original string |
| `Strings.SplitJoin` | index.js:110 | splitting a join of separator-free pieces gives back the same pieces |
| `Strings.SplitWithoutSep` | index.js:113 | a string without the separator splits into exactly itself |
| `Strings.SplitAtFirst` | index.js:113 | the first piece is the text before the first separator, and the later pieces are the split of the rest |
| `Strings.SplitFirstPrefix` | index.js:113 | a separator-free prefix extends the first piece of what follows it |
| `Strings.FirstPieceStart` | index.js:113 | the first piece is empty exactly when the string starts with the separator, and otherwise starts with the string's first character |
| `Strings.SplitHasSep` | index.js:113 | a split gives two or more pieces exactly when the separator occurs, so `split('@')[1]` is defined exactly when there is an `@` |
| `JsValues.Default` | index.js:69-75 | every defined value is kept, including the falsy `false`, `null`, `0` and `""`, so a destructuring default differs from the `or` operator; otherwise the result is the default, and a defined default leaves nothing `undefined` (so `X`, `connect` and `begin` are always defined); a falsy default such as `false` keeps the value's truthiness |
| `JsValues.FilterTruthy` | index.js:130-136 | `filter(Boolean)` keeps only truthy elements drawn from the input, never lengthens it, and changes nothing when every element is truthy |
| `JsValues.FilterTruthyCounts` | index.js:130-136 | no falsy value survives the filter, and every truthy value survives as often as it occurs in the input |
| `JsValues.FilterTruthyAppend` | index.js:130-136 | filtering a concatenation is the concatenation of the filtered parts, so the kept elements keep their order |
| `JsValues.LooseEqualsOneText` | index.js:122-128 | a value loosely equals at most one of the literals, so the `'no-reject'` and `'reject'` branches never overlap |
| `OptionResolver.SplitPositional` | index.js:62-67 | the connection string is `null` or the script is truthy; a non-null connection string and the script are the first two positional values; the script is a positional value, or `undefined` when there are fewer than two. `PositionalSplitCases` gives all the cases |
| `OptionResolver.PositionalSplitCases` | index.js:62-67 | two positional values with a truthy second one are connection string and script; one value or a falsy second one gives a null connection string and that value as script; no value gives null and `undefined` |
| `OptionResolver.ConnectDefault` | index.js:69-84 | without a `connect` entry, `connect` is `!X`; an explicit `connect` is used as given, even `false`; `begin` keeps the argument's truthiness and an explicit `begin` is used as given; without a `no_prepare` entry it is `!prepare`, and an explicit one is used as given |
| `OptionResolver.Connection` | index.js:91-96 | the folded object has no more keys than there are entries, and the last entry's key is always among them. `ConnectionKeys` and `ConnectionLastWins` give the exact keys and values |
| `OptionResolver.EntrySplitsOnFirstEquals` | index.js:91-96 | for an entry `k=v…`, the key is the text before the first `=`, and the value is the JSON parse of the text up to the next `=` or, when the parse fails, that raw text |
| `OptionResolver.EntryWithoutEquals` | index.js:93-94 | an entry without `=` sets its whole text as key, with the value `undefined` left by the failed parse of `undefined` |
| `OptionResolver.ConnectionKeys` | index.js:91-96 | the keys of the folded `connection` object are exactly the keys of the `sql-var` entries |
| `OptionResolver.ConnectionLastWins` | index.js:91-96 | of several entries with the same key, the last one decides that key's value |
| `OptionResolver.ReduceEntry` | index.js:92-94 | the `reduce` callback stores the entry under its key with its value, as the fold step defines them, and the key holds no `=` |
| `OptionResolver.BuildConnection` | index.js:91-96 | the in-place `reduce` gives the fold of all entries when every entry is a string, and otherwise the TypeError of `n.split` |
| `OptionResolver.DefinedEntriesKeep` | index.js:99-103 | for an object's entries, a key is kept exactly when its value is not `undefined`, with that value, and no other key appears |
| `OptionResolver.PutDefined` | index.js:99-103 | the `for … of` loop puts into `sqlOptions` exactly the defined entries |
| `OptionResolver.SqlOptionsKeys` | index.js:79-103 | the pool-option keys are a subset of `max`, `idle_timeout`, `connect_timeout`, `no_prepare` and `connection`; the first three are present exactly when their `sql-*` flag is defined; `no_prepare` (default `!prepare`) and `connection` are always present |
| `OptionResolver.HerokuHosts` | index.js:107-114 | a set, non-empty `PGHOST` always gives at least one host; a failure needs a truthy connection string; the host list is empty exactly when `PGHOST` is unset or empty and the connection string is falsy. `HerokuEnvironmentWins` and `HerokuHostsFromConnectionString` give the lists themselves |
| `OptionResolver.ResolveToken` | index.js:107-120 | a token that is not loosely `'heroku'` is kept unchanged; `heroku` resolves to `'no-reject'` or `false`; a failure happens only for `heroku` with a truthy connection string. `HerokuTokenCases` says which of the two tokens |
| `OptionResolver.SslOption` | index.js:122-128 | the driver's `ssl` is never `'disabled'`; it is the token itself, `false`, or one of the two `rejectUnauthorized` objects; a falsy token gives a falsy `ssl`. `TlsMapping` gives the full mapping |
| `OptionResolver.ResolveTls` | index.js:107-120 | the `heroku` block with its reassigned `hosts` and `theirSSL` gives the resolved token, or the TypeError the code throws |
| `OptionResolver.HerokuEnvironmentWins` | index.js:109-110 | a set, non-empty `PGHOST` gives the host list by itself, whatever the connection string |
| `OptionResolver.TwoHosts` | index.js:109-110 | `PGHOST=a,b` (no commas in `a` or `b`) gives the host list `[a, b]` |
| `OptionResolver.HerokuHostsFromConnectionString` | index.js:111-114 | without `PGHOST`, `user@h1,h2:port/…` gives the hosts between the first `@` and the next `/`, each without its `:port` |
| `OptionResolver.HerokuHostsNeedAt` | index.js:113 | without `PGHOST`, a non-empty connection string fails the heuristic exactly when it has no `@` |
| `OptionResolver.HerokuTokenCases` | index.js:116-119 | the token is `'no-reject'` exactly when every host ends with `.com`, including the empty host list, and `false` otherwise |
| `OptionResolver.HerokuWithoutHosts` | index.js:107-124 | with no `PGHOST` and a falsy connection string, `heroku` ends as `{rejectUnauthorized: false}` |
| `OptionResolver.HerokuAllDotCom` | index.js:107-119 | `heroku` with `PGHOST=foo.com,bar.com` resolves to `'no-reject'` |
| `OptionResolver.HerokuNotAllDotCom` | index.js:107-119 | `heroku` with `PGHOST=foo.com,bar.io` resolves to `false` |
| `OptionResolver.TlsMapping` | index.js:122-128 | `'no-reject'` maps to `{rejectUnauthorized: false}` and `'reject'` to `{rejectUnauthorized: true}`; `'disabled'` and `false` map to `false`; any other token is returned unchanged |
| `OptionResolver.TlsExplicitTokens` | index.js:107-128 | `reject` and `no-reject` resolve the same way whatever the environment and the connection string |
| `OptionResolver.TlsPassThrough` | index.js:107-128 | every `ssl` value other than the five handled ones (this includes `undefined`, `true`, `'prefer'` and `'require'`) reaches the driver unchanged |
| `OptionResolver.PgArgs` | index.js:130-136 | `pg` is `null` or an array of one or two truthy elements. `PgArgsShape` says which elements |
| `OptionResolver.PgArgsShape` | index.js:130-136 | `pg` is null exactly when `connect` is falsy; otherwise it has one or two elements, holds the connection string exactly when that is truthy, and ends in `{ssl, ...sqlOptions}` |
| `OptionResolver.Merge` | index.js:138-140 | the record's keys are the four computed fields plus the argument keys, and every argument appears unchanged. `MergeArgumentsWin` says when a computed field survives |
| `OptionResolver.MergeArgumentsWin` | index.js:138-140 | in the record, every argument appears unchanged; a computed field survives only when `args` lacks it; spreading `rest` after `args` changes nothing |
| `OptionResolver.Options` | index.js:60-141 | a run is accepted exactly when `sql-var` is a list of strings and the TLS token resolves; an absent or single `sql-var` gives the `reduce` TypeError, and a non-string entry gives the `split` TypeError; other failures come only from the `heroku` branch; an accepted run keeps every argument in the record |
| `OptionResolver.AcceptedWithoutHeroku` | index.js:60-141 | a list of string `sql-var` entries with any `ssl` other than `heroku` always gives a record, and the record's `ssl` is the argument's |
| `OptionResolver.ParseOptions` | index.js:60-141 | the code's step-by-step `parseOptions` equals the resolution `Options` on every input |
| `OptionResolver.DriverArguments` | index.js:84-136 | for any connection string and `ssl`: `pg` is null exactly when not connecting; otherwise it has one or two elements, holds the connection string exactly when that is truthy, and ends in the options object with that `ssl`, the default-applied `no_prepare`, the folded `connection`, and `max` exactly when `sql-max` was given |
| `OptionResolver.OptionsDriverArguments` | index.js:69-136 | when `args` has no `pg` entry of its own, from the arguments: `pg` is null exactly when not connecting; otherwise its last element is the options object, carrying the resolved `ssl`, the always-present `no_prepare` and `connection`, and `max` exactly when `sql-max` was given |
| `OptionResolver.SqlVarExample` | index.js:91-96 | `--sql-var a=2 --sql-var b=hello` gives `{a: 2, b: "hello"}` when `2` parses and `hello` does not |
| `ExecutionDriver.LocatorPrefixesExclusive` | index.js:167-179 | no script satisfies two of `http://`, `https://`, `/` and `file:///`, so the order of the prefix tests does not change the outcome |
| `ExecutionDriver.ModeOf` | index.js:160-163 | the run is `Transactional` exactly when `options.pg` and `options.begin` are both truthy, whatever value an argument put in `pg` (such as `false` from `--no-pg`); so `null` or a falsy `begin` gives `Direct`, and an array `pg` with a truthy `begin` gives `Transactional`. `ModeFromArguments` ties this to the arguments |
| `ExecutionDriver.ResolveScriptPath` | index.js:165-189 | a falsy script gives `RequiredScriptMissingError`; `http(s)://` and `/` scripts are used verbatim; `file:///` goes through `fileURLToPath`, whose TypeError is the failure `InvalidFileUrl` exactly for a `file:///` script it rejects; anything else is joined to the working directory; an empty path is the missing-script error; a non-string script is a TypeError |
| `ExecutionDriver.ModeFromArguments` | index.js:160-163 | when `args` has no `pg` entry of its own, the run is `Transactional` exactly when it connects and `--begin` is truthy, otherwise `Direct`; `-X` without an explicit `connect` gives `Direct` |
| `ExecutionDriver.ScriptFromPositional` | index.js:138-140 | without an overriding argument, the script and connection string of the record are those of the positional split |

## Left out

- Argument tokenizing (`zx.argv`, that is minimist) is not modelled. The model takes the tokenized map as input and requires only what the tokenizer always provides: an array `_` of positional values.
- `JSON.parse`, `URL.fileURLToPath`, `PATH.join` and `process.cwd()` are foreign calls. They are function parameters. Nothing is assumed about their results beyond their types: `JSON.parse` and `fileURLToPath` may fail (`None`), while `PATH.join` is taken not to throw.
- The connection lifecycle is not modelled, because it is asynchronous I/O against external libraries. This covers creating the `postgres` connection, publishing `global.sql`, `global.pg` and `global.postgres`, the dynamic `import(scriptPath)`, the `sql.begin` transaction, and the `sql.end()` calls (index.js:152-158, 183-191). The code's teardown is also not "exactly once": `sql.end()` runs in `.finally` and again at line 191.
- Printing the help text and calling `process.exit(1)` on an empty `argv` (index.js:146-149) are left out, because they are console and process effects. The same goes for the top-level `.catch`, which only logs when `$.verbose` (index.js:196-202).
- JavaScript objects are modelled as maps, so their key order is not kept. The `__proto__` key, which a plain object treats specially in `p[k] = …`, is not singled out.
- Numbers are reals. NaN, which is falsy in JavaScript, is not a value of the model.
- `JsValues.LooseEqualsOneText`: loose `==` is modelled only against the literals the code uses (`heroku`, `no-reject`, `reject`). These are non-empty, hold no comma, are not numeric and are not `true` or `false`. Loose equality with other strings is not modelled.
- `ExecutionDriver.ModeOf` models which wrapper is chosen. It does not model that the code then reaches `sql.begin` through the global `sql` rather than the block-scoped constant.
