# cx_Oracle test environment: a verified model

The cx_Oracle test suite shares one helper module, `test/TestEnv.py`. Almost
everything it does is a call into the cx_Oracle extension. The logic of its
own falls into four parts, and this project models and proves each of them:

- **The parameter cache.** `GetValue` and its wrappers resolve a named
  setting (user names, passwords, connect strings). They take the cached
  value if there is one, then the environment variable
  `CX_ORACLE_TEST_<name>`, then ask at the terminal. The result is stored in
  the global `PARAMETERS` dictionary, so no setting is asked for twice.
  `GetClientVersion` and `GetServerVersion` cache version tuples in the same
  dictionary.
  - Modules: `Parameters`, class `ParameterCache`.
  - The environment is a `map<string, string>`.
  - The terminal is a function from the prompt shown to the line typed.
- **The document-store (SODA) gate.** `SkipSodaTests` and
  `BaseTestCase.getSodaDatabase` decide from (major, minor) client and
  server versions whether SODA tests run. Versions are compared with
  Python's tuple order. Server version strings are parsed with
  `split(".")` and `int()`.
  - Module: `Versions`, with the Python string helpers in `PyStr`.
- **The round-trip tracker.** `RoundTripInfo` remembers the last reading of a
  session's round-trip counter. It reports how far the counter has moved
  since that reading.
  - Module: `RoundTrips`, class `RoundTripInfo`.
  - The counter reading is an argument.
- **The SQL script runner.** `RunSqlScript` splits a script into statements
  at lines whose stripped text is `/`. It substitutes `&name.` and `&name`
  placeholders into each statement and executes them. Afterwards it looks up
  the main user, whose objects' compilation errors it lists.
  - Module: `SqlScript`. `ExecuteScript` is the statement loop, and
    `RunSqlScript` adds the main-user lookup through the parameter cache.
  - The script is a sequence of lines, and the result is the sequence of
    statements executed.

Methods that change the cache or the tracker are proved against
specification functions:

- `Parameters.Resolve` and `Parameters.Resolved` specify the cache.
- `RoundTrips.Deltas` specifies the tracker.
- `SqlScript.ScriptStatements` specifies the script runner.

Lemmas then state what the source promises about those functions.

Two points of the code's behaviour are worth stating outright:

- A round-trip delta can be negative. `getRoundTrips` subtracts the
  remembered reading without clamping (test/TestEnv.py:218), so a counter
  that goes down is reported as a negative delta.
  `RoundTrips.QuiescentSampleIsZero` states this.
- There is no override ahead of the cache. A setting is resolved from the
  cache, then the environment, then the terminal (test/TestEnv.py:63-80).

## Model

| member | source | states |
|---|---|---|
| Parameters.ParameterCache.constructor | test/TestEnv.py:58-61 | the cache starts empty, and nothing has been asked |
| Parameters.ParameterCache.GetValue | test/TestEnv.py:63-80 | the value and prompt are those of the resolution order (cache, environment, terminal); the dictionary gains exactly that entry; no cached entry changes; the name is recorded as asked exactly when a prompt was shown; a name is never asked twice, and text settings stay text |
| Parameters.Resolved | test/TestEnv.py:79-80 | after a lookup the name is cached; no other key is added; no cached entry changes; a lookup of a cached name changes nothing |
| Parameters.ResolveIsMemoised | test/TestEnv.py:63-66 | once a name is resolved, any later lookup returns the same value with no prompt, whatever the caption, default, environment or terminal |
| Parameters.ResolvePromptsOnlyAsLastResort | test/TestEnv.py:67-69 | a prompt is shown exactly when the name is neither cached nor in the environment; an environment variable that is set is taken as it is, even when it is empty |
| Parameters.PromptShowsDefault | test/TestEnv.py:70-76 | on the prompt path the input is echoed exactly when there is a default; the label is `caption [default]: ` with a default and `caption: ` without one |
| Parameters.PromptAnswerShape | test/TestEnv.py:73-78 | with a default, a blank reply gives the default and any other reply gives its stripped text, so the answer is never empty; without a default, the answer is the masked input exactly as typed |
| Parameters.ResolveKeepsTypes | test/TestEnv.py:63-80 | resolving a name other than a version name yields text and keeps version tuples only under the version names |
| Parameters.AskedOnceAfterStore | test/TestEnv.py:58-61 | storing a new name keeps every asked name cached and the record of asked names free of repeats |
| Parameters.ExtendsTransitive | test/TestEnv.py:58-61 | a cache that only ever gains entries keeps this property across a series of lookups |
| Parameters.ParameterCache.GetMainUser | test/TestEnv.py:82-83 | resolves `MAIN_USER` with caption "Main User Name" and default "pythontest"; the record of prompted names grows by exactly that lookup's prompt, if any |
| Parameters.ParameterCache.GetMainPassword | test/TestEnv.py:85-86 | resolves the main user first, then `MAIN_PASSWORD` with no default and the caption "Password for <user>"; the record of prompted names grows by exactly the prompts of those two lookups, in order |
| Parameters.ParameterCache.GetProxyUser | test/TestEnv.py:88-89 | resolves `PROXY_USER` with caption "Proxy User Name" and default "pythontestproxy"; the record of prompted names grows by exactly that lookup's prompt, if any |
| Parameters.ParameterCache.GetProxyPassword | test/TestEnv.py:91-92 | resolves the proxy user first, then `PROXY_PASSWORD` with no default, captioned with that user; the record of prompted names grows by exactly the prompts of those two lookups, in order |
| Parameters.ParameterCache.GetConnectString | test/TestEnv.py:94-95 | resolves `CONNECT_STRING` with caption "Connect String" and default "localhost/orclpdb1"; the record of prompted names grows by exactly that lookup's prompt, if any |
| Parameters.ParameterCache.GetAdminConnectString | test/TestEnv.py:108-111 | resolves `ADMIN_USER` (default "admin"), then `ADMIN_PASSWORD`, then the connect string; returns `user/password@connect`; the record of prompted names grows by exactly the prompts of those three lookups, in order |
| Parameters.Connected | test/TestEnv.py:159-161 | resolving the connection's arguments adds exactly the main user, main password and connect string to the cache, changes no cached entry and keeps the cache well-typed |
| Parameters.ParameterCache.GetConnectionArguments | test/TestEnv.py:159-161 | the user, password and connect string `GetConnection` passes to the driver, resolved in that order; the new cache is exactly `Connected` of the old one, and the record of prompted names grows by exactly the prompts of the three lookups, in order |
| Parameters.ParameterCache.GetClientVersion | test/TestEnv.py:171-177 | returns the cached client version if there is one; otherwise caches and returns the first two components of the library's version |
| Parameters.ParameterCache.GetServerVersion | test/TestEnv.py:179-186 | returns the cached server version if there is one; otherwise resolves and caches the connection's credentials, then parses the server's version string and caches the result. The cache is then exactly the credential lookups plus the version, and the record of prompted names grows by exactly the prompts of the credential lookups. A string that does not parse reports the error; the credentials stay cached and no version is cached |
| Parameters.ParameterCache.SkipSodaTests | test/TestEnv.py:188-197 | true exactly when client < (18, 3), or server < (18, 0), or server > (20, 1) with client < (20, 1). The client is the cached version or the first two components of the library's version. The server is the cached version or the parse of the server's string. The server version is not obtained when the client check already skips. An unparsable server version is reported as an error. The new cache is given on every path: the client version, plus the connection's credentials and the server version when it was not cached; in that case the record of prompted names grows by exactly the prompts of the credential lookups |
| Parameters.SkipSodaTestsExample | test/TestEnv.py:188-197 | from an empty cache, client (19, 0) with a server string parsing to (20, 2) is skipped |
| Versions.LessIrreflexive | test/TestEnv.py:190-195 | no tuple is less than itself |
| Versions.LessTransitive | test/TestEnv.py:190-195 | the tuple order is transitive |
| Versions.LessTrichotomy | test/TestEnv.py:190-195 | two different tuples are ordered exactly one way |
| Versions.LessEqIsNotGreater | test/TestEnv.py:190-195 | `a <= b` holds exactly when `b < a` does not |
| Versions.PairLess | test/TestEnv.py:190-195 | on pairs the order compares the major component, then the minor one |
| Versions.ParseAll | test/TestEnv.py:184 | the conversion of the components succeeds exactly when every component is an integer literal, and then yields their values in order |
| Versions.ParseVersion | test/TestEnv.py:184 | the first two components of `int()` over the pieces of `split(".")`, all or nothing: it succeeds exactly when every piece is an integer literal, and then has two components (fewer when there are fewer pieces), each the value of its piece |
| Versions.ParseVersionOfDotted | test/TestEnv.py:184 | a version written as dotted decimal components parses back to its first two components |
| Versions.SodaTestsRunIff | test/TestEnv.py:188-197 | the tests run exactly when client >= (18, 3), server >= (18, 0), and either server <= (20, 1) or client >= (20, 1) |
| Versions.SodaTestsExamples | test/TestEnv.py:188-197 | client (19, 0) with server (20, 2) is skipped; (18, 3) with (18, 0) runs; (17, 0) with (18, 0) is skipped; (20, 1) with (21, 0) runs |
| Versions.SodaDatabaseGate | test/TestEnv.py:227-236 | checks in source order: a client below `minclient` is skipped whatever the server string; only then is the server string parsed, and a parse failure is reported exactly in that case; a parsed server below `minserver`, or above (20, 1) with a client below (20, 1), is skipped, and these are the only skips |
| Versions.SodaDatabaseGateSupportedIff | test/TestEnv.py:227-237 | the document store is opened exactly when the client meets `minclient`, the server string parses to a version meeting `minserver`, and the pair is outside the (20, 1) band |
| Versions.SodaGatesAgree | test/TestEnv.py:227-236 | with the default minimums, `getSodaDatabase` skips exactly when `SkipSodaTests` does for the same versions; a client below the minimum is skipped before the server string is parsed; parsing fails only when the client passed |
| PyStr.TrimStartIsSuffix | test/TestEnv.py:121-122 | `lstrip` leaves the suffix starting at the first non-whitespace character |
| PyStr.TrimEndIsPrefix | test/TestEnv.py:121-122 | `rstrip` leaves the prefix ending at the last non-whitespace character |
| PyStr.StripIsTrimmedSlice | test/TestEnv.py:121-122 | `strip` yields a slice of its input that neither starts nor ends with whitespace |
| PyStr.StripIdempotent | test/TestEnv.py:122 | stripping twice is stripping once |
| PyStr.StripEmptyIffAllSpace | test/TestEnv.py:122-123 | a stripped statement is empty exactly when its text is whitespace only |
| PyStr.SplitOn | test/TestEnv.py:184 | `split(".")` yields at least one piece and no piece contains the separator |
| PyStr.JoinSplit | test/TestEnv.py:184 | joining the pieces of a split with the separator gives back the string |
| PyStr.SplitJoin | test/TestEnv.py:184 | splitting a join of separator-free pieces gives back the pieces |
| PyStr.ReplaceAbsent | test/TestEnv.py:125 | `replace` of a string whose first character does not occur changes nothing |
| PyStr.ShowNatValue | test/TestEnv.py:184 | the decimal digits of a natural number have that number as their value |
| PyStr.ParseShow | test/TestEnv.py:184 | `int(str(n)) == n` for every integer |
| PyStr.ShowHasNoDot | test/TestEnv.py:184 | a decimal numeral never contains a dot |
| RoundTrips.RoundTripInfo.constructor | test/TestEnv.py:201-207 | resolves the administrative user, password and connect string through the cache, and the new cache is exactly those three lookups on the old one, and the record of prompted names grows by exactly their prompts, in order; records the session; takes one sample, so the remembered reading is the first reading |
| RoundTrips.RoundTripInfo.GetRoundTrips | test/TestEnv.py:209-220 | returns the current reading minus the remembered one, then remembers the current reading; what it has reported is always the differences of the readings |
| RoundTrips.DeltaAt | test/TestEnv.py:217-220 | each reported value is that reading minus the one before it (0 before the first) |
| RoundTrips.QuiescentSampleIsZero | test/TestEnv.py:217-218 | a sample reports 0 exactly when the counter has not moved, and a negative value exactly when it went down |
| RoundTrips.DeltasTelescope | test/TestEnv.py:217-220 | the values reported over a run add up to the last reading minus the remembered one |
| RoundTrips.DeltasAppend | test/TestEnv.py:217-219 | one more sample appends its difference from the last reading |
| RoundTrips.SamplesSinceConstruction | test/TestEnv.py:202-207 | the values reported after the constructor's sample add up to the latest reading minus the constructor's reading |
| SqlScript.Placeholders | test/TestEnv.py:116-117 | one search pair `&name` + suffix per binding, in binding order, each with its value |
| SqlScript.ReplaceEachAppend | test/TestEnv.py:124-125 | replacing along two lists of pairs is replacing along the first, then the second |
| SqlScript.DottedBeforeBare | test/TestEnv.py:116-117 | every `&name.` placeholder is replaced before any `&name` placeholder |
| SqlScript.DottedPlaceholderExample | test/TestEnv.py:116-125 | `&t.x` with `t = v` becomes `vx`; replacing the bare form first would have left `v.x` |
| SqlScript.ReplaceEachAbsent | test/TestEnv.py:124-125 | replacing placeholders that all start with a character the text lacks changes nothing |
| SqlScript.SubstituteWithoutAmpersand | test/TestEnv.py:124-125 | a statement without `&` is executed unchanged |
| SqlScript.BufferedAppend | test/TestEnv.py:120-133 | the lines buffered after reading two runs of lines are those the second run leaves after the first |
| SqlScript.PendingAppend | test/TestEnv.py:120-133 | the statements from two runs of lines are those of the first, then those of the second with the first's buffer |
| SqlScript.UnterminatedLinesOnlyBuffer | test/TestEnv.py:132-133 | lines with no terminator execute nothing and are appended to the buffer |
| SqlScript.StatementBlock | test/TestEnv.py:121-131 | a terminator executes the stripped join of exactly the lines since the previous terminator; it is not part of the statement; a blank statement is skipped; the buffer is then empty |
| SqlScript.TerminatorResets | test/TestEnv.py:121-131 | what follows a terminator is executed as if it were a script of its own |
| SqlScript.TrailingLinesNeverRun | test/TestEnv.py:120-133 | lines after the last terminator are never executed |
| SqlScript.AtMostOnePerTerminator | test/TestEnv.py:120-131 | no more statements are executed than there are terminator lines |
| SqlScript.StatementsAreTrimmed | test/TestEnv.py:122-123 | without placeholders, every executed statement is non-empty and has no surrounding whitespace |
| SqlScript.ReadLine | test/TestEnv.py:120-133 | reading one more line: a terminator executes what the lines read so far left buffered and empties the buffer; any other line is appended to the buffer |
| SqlScript.ReplacePlaceholders | test/TestEnv.py:124-125 | the replacement loop applies every search pair in turn, each to all its occurrences, in list order |
| SqlScript.ExecuteScript | test/TestEnv.py:114-133 | after each line, the statements executed are those of the lines read so far and the buffer is what they left; at the end, exactly the statements of the script specification have run, in order, with every placeholder replacement applied |
| SqlScript.RunSqlScript | test/TestEnv.py:113-139 | runs exactly the script's statements, then resolves the main user that owns the objects whose compilation errors are queried: the new cache is exactly the `MAIN_USER` lookup on the old one, and the record of prompted names grows by that lookup's prompt, if any |

## Left out

- Every call into the cx_Oracle extension is left out. This includes `connect`, `SessionPool`, cursors, `execute`/`fetchone`, `clientversion`, `Connection.version` and `getSodaDatabase`. The library's version tuple, the server's version string and the counter reading enter as arguments. The connected session's identifier is also an argument.
- `GetPool` is left out: it forwards its arguments to `SessionPool`. A `user` or `password` it is given is passed on in place of the cached one. With a `user` given and no `password`, the main password is paired with that user. Its extra keyword arguments are passed on too. The only cache lookups it makes are those of `GetMainUser`, `GetMainPassword` and `GetConnectString`, which are modelled.
- `GetCharSetRatio`, `isOnOracleCloud`, `RunTestCases`, `setUp`, `setUpRoundTripChecker`, `tearDown` and `load_tests` are left out: each is a database query or unittest glue.
- `assertRoundTrips` is left out: it compares a sample against an expected count inside unittest. The value it checks is `GetRoundTrips`'s result.
- `RunSqlScript`: the text of the `dba_errors` query after the script and the printing of its rows are left out (a driver call and console output). The query's `owner` argument, `GetMainUser()`, is modelled: `RunSqlScript` resolves it through the cache. Also left out are the script file's path and opening, and the translation of line endings by text-mode reading; the lines are an input.
- `RunSqlScript`: a statement the database rejects is printed and the error is re-raised, so only a prefix of the statements runs. The model gives the statements a successful run executes.
- `GetValue`: `os.environ`, `input` and `getpass` are inputs. An end of input or an interrupt at the prompt is not modelled. `input` already drops the line terminator, so a reply is the typed line without it.
- `ParseInt`: Python's `int()` also accepts non-ASCII decimal digits. The model accepts only ASCII digits, with optional surrounding whitespace, a sign and single underscores between digits. Any other string is treated as the `ValueError` case.
- `SkipSodaTests` and `GetServerVersion`: a `ValueError` from parsing the server version is modelled as a `None` result. Propagating the exception is not modelled.
- `getSodaDatabase`'s `message` argument and the `skipTest` exception are left out. The gate reports `Skipped` instead.
- `samples/tutorial/subclass.py` is not part of this model. It only subclasses the driver's connection class to connect and run one query.
