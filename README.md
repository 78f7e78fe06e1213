# logwise in Dafny

A model of the logwise logger (`src/logger.service.ts`), a process-wide
winston logger with nine channels: info, success, api, db, client, warn,
error, debug and verbose. A call whose level the console gate admits
appends one table row to the console. The file `logs/server.log` gets the
same row for the seven levels ranked at or above `db`. Debug and verbose
never reach the file, and in production they print nothing at all. A row
holds:

- a timestamp;
- the upper-cased level;
- the caller's `file:line`;
- an emoji/category prefix;
- the message.

The modules follow the parts of the source file:

- `Environment` (environment.dfy): the environment name taken from four
  variables, the production test, the two winston rank tables, the logger's
  threshold, the file transport's threshold, and the gate a transport applies
  to a level.
- `Location` (location.dfy): `getLogLocation`. It picks the first caller frame
  of a stack trace, matches it against the two frame patterns by their
  regular-expression semantics (the leftmost match, a greedy `(.*)`, a
  `.` that does not match line terminators), and returns `basename:line`.
- `Format` (format.dfy): `toLogFormat`'s padded row and `formatPrefix`, with
  widths measured in UTF-16 code units as JavaScript measures them.
- `Values` (values.dfy): JavaScript values as a closed datatype with prototype
  chains, and the operations on them that the logger uses:
  - `typeof` and `String(...)`;
  - `Object.entries` and property lookup;
  - `constructor.name`;
  - `summarizeObject`.
- `Json` (json.dfy): `JSON.stringify(v, null, 2)` as ECMA-262 section 25.5.2
  defines it, including the TypeError it throws on a BigInt.
- `Bodies` (bodies.dfy): the message bodies of `error`, `debug` and `verbose`,
  and `extractDetails` with its prototype walk as a loop.
- `Logging` (logger.dfy):
  - the `Logger` class, with its transports as sequences of lines that each
    call appends to and the winston format it overwrites on every call;
  - `logMessage`;
  - the nine channel methods;
  - the `GlobalScope` class, the one-slot `logwise` registration with its
    proxy that rejects assignment.
- `Text` (text.dfy): the JavaScript string operations the source calls:
  `padEnd`, `trim`, `split`, `startsWith`, `includes`, case mapping and
  `String(n)`. A `Join` is defined only as the inverse `split` is proved
  against; the source never joins.
- `Wrappers` (wrappers.dfy): the `Option` type.

The environment variables are an input of the `Logger` constructor; the
source reads them once, when the module loads. Two inputs are parameters of
each call:

- the stack trace text, which the source reads from `new Error().stack`;
- the timestamp, which the source takes from `new Date().toLocaleString()`.

Two details of the registration:

- A second registration logs a warning through the installed logger and keeps
  the first binding (lines 296-298); it does not throw.
- The code installs the global `logwise`, whose channel for client events is
  named `client`. `src/global.d.ts` declares a `log` global with a `discord`
  channel, which the code never installs.

## Model

| member | source | states |
|---|---|---|
| Environment.FirstSetIsFirst | src/logger.service.ts:5 | the chain of `or`s gives the value at the first set position, and the default when none is set |
| Environment.EnvironmentName | src/logger.service.ts:5 | the environment name is never empty ("unset" at worst) |
| Environment.EnvironmentNameIsFirstSet | src/logger.service.ts:5 | the name is the first non-empty of NODE_ENV, APP_ENV, ENVIRONMENT, STAGE, else "unset" |
| Environment.IsProduction | src/logger.service.ts:48 | defines `_isProduction`: the lower-cased name is "production" or "prod" (its properties: IsProductionIgnoresCase, ProductionAliases) |
| Environment.ShowsBanner | src/logger.service.ts:45 | defines the banner test: the lower-cased name is "unset" (its consequence: BannerMeansDevelopment) |
| Environment.IsProductionIgnoresCase | src/logger.service.ts:48 | the production test gives the same answer for the name upper- or lower-cased |
| Environment.ProductionAliases | src/logger.service.ts:48 | "production", "PROD" and "Prod" are production; "unset", "staging" and "" are not |
| Environment.BannerMeansDevelopment | src/logger.service.ts:42-48 | the name that prints the banner saying debug and verbose are disabled selects the development table, where both are enabled |
| Environment.DebugLevel | src/logger.service.ts:50-52 | defines `_getDebugLevel`: db in production, debug otherwise |
| Environment.EnabledLevels | src/logger.service.ts:53-73 | defines `_getEnabledLevels`: the seven shared ranks in production, plus verbose and debug otherwise (its properties: RanksAreContiguous, DevelopmentExtendsProduction) |
| Environment.Passes | src/logger.service.ts:89 | defines the gate a transport applies: the level and the threshold are in the table and the level ranks no lower than the threshold (its properties: LoggerThresholdAdmitsTable, FileSinkAdmits) |
| Environment.NameInjective | src/logger.service.ts:53-73 | distinct levels have distinct winston names |
| Environment.LevelOrder | src/logger.service.ts:53-73 | the level order of each table lists no level twice |
| Environment.RanksAreContiguous | src/logger.service.ts:53-73 | each table ranks exactly the levels of its order, each at its position there: ranks 0..6 in production and 0..8 otherwise, with no gap |
| Environment.DevelopmentExtendsProduction | src/logger.service.ts:53-73 | the development table is the production table plus verbose = 7 and debug = 8 |
| Environment.LoggerThresholdAdmitsTable | src/logger.service.ts:87-89 | the logger threshold (db or debug) has the highest rank in its table, so the console gate admits exactly the levels of the table |
| Environment.FileSinkAdmits | src/logger.service.ts:109 | the file transport at level db admits exactly the seven shared levels in either table; verbose and debug never reach it |
| Environment.ProductionSilencesDebug | src/logger.service.ts:53-61 | in production no gate admits debug or verbose |
| Environment.DevelopmentEnablesDebug | src/logger.service.ts:50-73 | outside production the console gate admits debug and verbose |
| Location.IsCallerFrame | src/logger.service.ts:15-20 | defines the frame filter: the line starts with "at " and contains none of node_modules, logger.service, winston |
| Location.StackLines | src/logger.service.ts:12 | defines the trace's lines: split at line feeds, each trimmed (its property: StackLinesOfTrimmed) |
| Location.FindCaller | src/logger.service.ts:15-20 | the index of the first line that starts with "at " and mentions none of node_modules, logger.service, winston; None exactly when there is no such line |
| Location.FindCallerFirst | src/logger.service.ts:15-20 | a qualifying line with no qualifying line before it is the one found |
| Location.StackLinesOfTrimmed | src/logger.service.ts:12 | splitting at line feeds and trimming gives back trimmed single lines joined by line feeds |
| Location.TailUnique | src/logger.service.ts:25 | a line has at most one `:digits:digits` ending at its end |
| Location.DigitRunStart | src/logger.service.ts:25 | the start of the longest digit run ending at a position |
| Location.TailColons | src/logger.service.ts:25 | the two colons of a `:line:col` ending sit just before the last two digit runs |
| Location.LineColumnTail | src/logger.service.ts:25 | finds the colons of the `:line:col` ending, and None exactly when the line has none |
| Location.FirstStart | src/logger.service.ts:25 | the leftmost position from which the pattern matches, given its ending |
| Location.MatchPattern | src/logger.service.ts:25 | a match captures a non-empty digit string as the line |
| Location.MatchPatternIsLeftmost | src/logger.service.ts:25 | the match exists exactly when the pattern matches somewhere, and then it is the leftmost match, with the only possible ending |
| Location.MatchFrame | src/logger.service.ts:25 | the `(path:line:col)` pattern is tried first and `at path:line:col` second; a match captures digits as the line |
| Location.ParenMatch | src/logger.service.ts:25 | when the only `(` before the path is the opening one, the first pattern captures exactly the path and the line |
| Location.ParenFrameResolves | src/logger.service.ts:25 | a frame `at fn (path:line:col)` yields its path and line, whatever colons and digits the path holds |
| Location.BareFrameResolves | src/logger.service.ts:25 | a frame `at path:line:col` yields its path and line |
| Location.StripTrailingSlashes | src/logger.service.ts:30 | the result is a prefix of the path that does not end with a slash, and everything cut off is slashes: exactly the trailing slashes are dropped |
| Location.AfterLastSlash | src/logger.service.ts:30 | the slash-free suffix after the last slash |
| Location.Basename | src/logger.service.ts:30 | a base name never contains a slash |
| Location.BasenameOfJoined | src/logger.service.ts:30 | the base name of `dir/name` is `name`, and a bare name is its own base name |
| Location.CallerLocation | src/logger.service.ts:15-30 | a non-empty location is a slash-free name, ":" and a non-empty digit string |
| Location.GetLogLocation | src/logger.service.ts:8-31 | no trace gives ""; a non-empty location is a slash-free name, ":" and a non-empty digit string |
| Location.TraceResolvesFirstCaller | src/logger.service.ts:15-30 | the location comes from the first caller frame alone: if that frame matches neither pattern the result is "", even when a later frame would match |
| Location.TraceWithoutCallerResolvesEmpty | src/logger.service.ts:22 | a trace without a caller frame gives "" |
| Format.RowHead | src/logger.service.ts:117 | the head is the timestamp padded to 20, " \| ", the upper-cased level padded to 7, " \| ", the location padded to 25 and " \| "; it starts with the timestamp, and its width is each field's width or its padding, plus three separators |
| Format.LevelColumn | src/logger.service.ts:117 | when the timestamp fits, the upper-cased level follows a " \| " and starts at code unit 23 |
| Format.LocationColumn | src/logger.service.ts:117 | when the timestamp and the level fit, the location follows the second " \| " and starts at code unit 33 |
| Format.FormatLine | src/logger.service.ts:114-119 | defines the printed row: the head, then the message (its properties: MessageAligned, LevelColumn, LocationColumn) |
| Format.MessageAligned | src/logger.service.ts:114-119 | a row starts with its timestamp and ends with its message; when the fields fit their widths the message starts at code unit 61, whatever the values |
| Format.LevelLabel | src/logger.service.ts:117-125 | upper-casing the level twice, as `logMessage` and `toLogFormat` do, is the same as once, and every label fits the level column |
| Format.LevelNeverShiftsMessage | src/logger.service.ts:117 | with a short timestamp and location, every level's row head is 61 code units wide |
| Format.EmojiColumn | src/logger.service.ts:130 | the emoji, then at least one zero-width space filling the column to 4 code units (more when the emoji is longer), then two spaces |
| Format.CategoryColumn | src/logger.service.ts:134-135 | `[category]` followed only by spaces, 10 code units wide or the tag's own width when longer |
| Format.FormatPrefix | src/logger.service.ts:129-137 | the emoji column followed by the category column when the category is a non-empty string, and by nothing otherwise; so it starts with the emoji, contains `[category]` and has the padded widths of both columns |
| Format.PrefixWidth | src/logger.service.ts:130-135 | a one-character emoji with a category of at most 8 code units gives a prefix of 16 code units, or 6 without a category |
| Format.Emoji | src/logger.service.ts:163-227 | defines each channel's emoji, as passed to `formatPrefix` by the nine channel methods |
| Format.Category | src/logger.service.ts:163-227 | defines each channel's category: SUCCESS, API, DB, CLIENT, DEBUG, VERBOSE, and none for info, warn and error |
| Format.ChannelPrefix | src/logger.service.ts:163-227 | defines the prefix a channel method builds from its emoji and category (its property: ChannelPrefixWidth) |
| Format.ChannelPrefixWidth | src/logger.service.ts:163-227 | every channel's prefix starts with its emoji and is 16 code units wide with a category and 6 without one |
| Values.TypeOf | src/logger.service.ts:199 | defines `typeof`: "object" for null, arrays and objects, "function" for functions, and the primitive's type otherwise |
| Values.TypeOfObject | src/logger.service.ts:199 | `typeof` is "object" exactly for arrays, objects and null |
| Values.ToDisplay | src/logger.service.ts:199 | defines `String(v)` for values of a type other than "object": the string itself, "undefined", the primitive's text, or the function's source |
| Values.OwnProps | src/logger.service.ts:242 | an object's own properties are its properties; an array has one per item, then `length` |
| Values.Entries | src/logger.service.ts:214 | `Object.entries` keeps exactly the enumerable own properties |
| Values.ArrayEntries | src/logger.service.ts:214 | the entries of an array are its indices with its items |
| Values.Find | src/logger.service.ts:251 | the lookup finds a property with the key, and None exactly when there is none |
| Values.FindFirst | src/logger.service.ts:251 | the lookup returns the first property that carries the key |
| Values.ProtoGet | src/logger.service.ts:251 | defines a lookup on a prototype chain: the first link holding the key, with `Object.prototype` holding only `constructor`, and `undefined` at the end of the chain |
| Values.Get | src/logger.service.ts:251 | defines `obj[key]`: the first own property with the key, else the first on the prototype chain, else `undefined` |
| Values.GetOwn | src/logger.service.ts:251 | an own property that no earlier own property shadows is what `obj[key]` reads |
| Values.Truthy | src/logger.service.ts:260 | defines JavaScript truthiness, which decides the `\|\| "N/A"` fallback |
| Values.NameOf | src/logger.service.ts:260 | defines `c?.name`: a function's name, the `name` property of an array or object, `undefined` otherwise |
| Values.ConstructorName | src/logger.service.ts:260 | the result is always truthy; it is "N/A" for undefined and null; it is a string whenever the constructor is not an array or object |
| Values.InstanceConstructor | src/logger.service.ts:260 | an instance reports the name of the constructor on its prototype, or "N/A" when that name is empty |
| Values.ConstructorObjectName | src/logger.service.ts:260 | a `constructor` that is a plain object is read through its `name`: a truthy name is reported as it is, anything else as "N/A" |
| Values.PlainObjectConstructor | src/logger.service.ts:260 | a plain object without its own `constructor` reports "Object" |
| Values.SpeciesProto | src/logger.service.ts:143 | the prototype of the array `map` creates, found through the first `constructor` on the chain; it derives from `Array.prototype` whenever the chain does; None where that constructor is null or a primitive and `map` throws |
| Values.Summarize | src/logger.service.ts:139-153 | depth 0 gives the marker for every value; an array whose chain never reaches `Array.prototype` throws (no `map`), as does one whose species is unusable; otherwise arrays keep their length and get SpeciesProto's prototype; objects become plain objects with the keys of their entries in order; other values pass unchanged; any result nests no deeper than the depth |
| Values.SummarizePlainArrays | src/logger.service.ts:139-153 | a tree whose arrays all have `Array.prototype` as prototype is summarised without throwing, at any depth |
| Values.NullPrototypeArrayThrows | src/logger.service.ts:143 | an array with a null prototype makes the summary throw: `obj.map` is not a function |
| Values.ArrayViewRebuiltPlain | src/logger.service.ts:143 | an array whose prototype is `Object.create(Array.prototype)` finds `Array` as its constructor and is rebuilt with `Array.prototype` |
| Values.SummarizeOnce | src/logger.service.ts:146-148 | one level of summary replaces the value of every entry by the marker |
| Json.EscapeChar | src/logger.service.ts:199 | every character is escaped to non-empty text |
| Json.Escape | src/logger.service.ts:199 | defines the inside of QuoteJSONString: each character escaped in order (its properties: EscapeRoundTrip, EscapeSingleLine) |
| Json.NumberText | src/logger.service.ts:199 | defines a number's JSON text: NaN and the infinities become `null`, any other number keeps its `String` text |
| Json.Serializable | src/logger.service.ts:199 | defines when `JSON.stringify` throws: a BigInt at the top, among an array's items or among the values of an object's enumerable own properties, at any depth (its properties: Serialize, EntriesSerializable) |
| Json.Quote | src/logger.service.ts:199 | a quoted string starts and ends with a double quote |
| Json.EscapeCharRead | src/logger.service.ts:199 | reading back the escape of one character gives that character |
| Json.EscapeRoundTrip | src/logger.service.ts:199 | reading back the escaped text of a string gives the string |
| Json.EscapeSingleLine | src/logger.service.ts:199 | an escaped string contains no line feed or carriage return |
| Json.EntriesSerializable | src/logger.service.ts:222 | an object serialises exactly when the values of its entries do |
| Json.Block | src/logger.service.ts:222 | no members give the bare brackets; members start a new line indented by one step |
| Json.ItemTexts | src/logger.service.ts:222 | one text per item |
| Json.MemberTexts | src/logger.service.ts:222 | at most one text per member, since omitted values are dropped |
| Json.Serialize | src/logger.service.ts:199-200 | serialising throws exactly on a value that holds a BigInt where it looks; it omits exactly undefined, functions and symbols; a string becomes its quoted text |
| Json.Stringify | src/logger.service.ts:199 | defines `JSON.stringify(v, null, 2)` as serialisation at the top level with no indentation (its properties: Serialize, EmptyStructures, ArrayLayout) |
| Json.EmptyStructures | src/logger.service.ts:222 | an empty array gives `[]` and an object without enumerable properties gives `{}` |
| Json.ArrayLayout | src/logger.service.ts:267 | a non-empty array that serialises opens a new line indented by two spaces |
| Bodies.TextOf | src/logger.service.ts:199 | the text of a serialisation, None exactly when it does not give text |
| Bodies.Render | src/logger.service.ts:199 | a value whose `typeof` is not "object" (string, number, boolean, BigInt, symbol, undefined, function) gives `String(v)`; an array or object gives its serialisation and null gives "null"; None exactly when serialising throws |
| Bodies.ErrorBody | src/logger.service.ts:198-204 | the error body throws exactly when rendering the message throws; with no second value it is the rendered message; an empty rendering gets no separator |
| Bodies.ErrorRepeatsMessage | src/logger.service.ts:200-203 | with a second value, the body is the rendered message, " \| " and the rendered message again |
| Bodies.ErrorIgnoresSecondValue | src/logger.service.ts:200 | which second value is passed never changes the body |
| Bodies.ErrorExample | src/logger.service.ts:198-203 | `error("failed", {code: 5})` logs "failed \| failed" |
| Bodies.DebugRecord | src/logger.service.ts:214-219 | each debug record has the keys key, type, value, isMethod, in order, and is flat |
| Bodies.DebugRecordFields | src/logger.service.ts:214-219 | read back, a debug record holds the key, `typeof` the value, the value or "[Object]" for an array or object, and whether the value is a function |
| Bodies.DebugRecords | src/logger.service.ts:213-220 | one record per entry of an array or object, the i-th being the record of the i-th entry, and none for anything else |
| Bodies.DebugRecordsFields | src/logger.service.ts:213-220 | the i-th record holds the i-th entry's key, `typeof` its value, the value or "[Object]", and whether it is a function |
| Bodies.DebugBody | src/logger.service.ts:207-222 | a string is logged verbatim; an array or object gives the serialised list of its records, None when that throws; any other value gives `[]` |
| Bodies.DebugDumpIsFlat | src/logger.service.ts:213-220 | the debug dump nests at most two levels: the list and its flat records |
| Bodies.PropertyNames | src/logger.service.ts:242-248 | the inspected names start with the own names; a value whose prototype is `Object.prototype` or null is inspected by its own names only |
| Bodies.CollectPropertyNames | src/logger.service.ts:242-248 | the prototype walk collects the own names, then each prototype's names, up to `Object.prototype` or null |
| Bodies.VerboseRecord | src/logger.service.ts:250-262 | each verbose record has the eight keys in order; nested values become the marker, so it is flat unless the constructor's `name` is itself an array or object |
| Bodies.VerboseRecordFields | src/logger.service.ts:250-262 | read back, the record of `key` holds the key, `typeof obj[key]`, the value or "[Deep Object]" for an array or object, whether it is an array, null, undefined, its constructor name and whether it is a function |
| Bodies.VerboseFields | src/logger.service.ts:253-262 | the eight fields, in order, are flat when neither the shown value nor the constructor name is an array or object |
| Bodies.VerboseFieldsRead | src/logger.service.ts:253-262 | read back, each of the eight fields holds what it was built from |
| Bodies.VerboseDetails | src/logger.service.ts:239-264 | one record per inspected name, duplicates kept, the i-th being the record of the i-th name |
| Bodies.VerboseDetailsFields | src/logger.service.ts:250-262 | the i-th record describes `obj[name]` for the i-th inspected name, read through the prototype chain |
| Bodies.ExtractDetails | src/logger.service.ts:239-264 | `extractDetails` returns the records of the inspected names, in order, each keyed by its name |
| Bodies.VerboseBody | src/logger.service.ts:226-267 | a string is logged verbatim; another value that is not an array or object gives its serialised `{type, value}` wrapper; an array or object gives the serialised list of its details; None when serialising throws |
| Bodies.TypeAndValue | src/logger.service.ts:235 | the wrapper has the keys type and value and holds the value |
| Bodies.TypeAndValueFields | src/logger.service.ts:235 | read back, the wrapper holds `typeof` the value and the value |
| Bodies.TypeAndValueSerializable | src/logger.service.ts:235 | the wrapper serialises exactly when the value does |
| Bodies.BuildVerboseBody | src/logger.service.ts:229-267 | the three branches of `verbose` build the verbose body |
| Bodies.PlainObjectNames | src/logger.service.ts:242-245 | a plain object is inspected by its own names only, non-enumerable ones included |
| Bodies.InheritedNames | src/logger.service.ts:242-248 | a class instance lists its own names, then its class's, then its superclass's |
| Bodies.ArrayNames | src/logger.service.ts:242-248 | an array is inspected by its indices, then `length`, then `constructor` |
| Bodies.DumpFails | src/logger.service.ts:222 | a dump list fails to serialise exactly when one of its records does |
| Bodies.DebugRecordSerializable | src/logger.service.ts:214-219 | a debug record fails exactly when the value is a BigInt |
| Bodies.DebugRecordsSerializable | src/logger.service.ts:213-222 | the records align with the entries, and each fails exactly when its entry holds a BigInt |
| Bodies.DebugFailsOnlyOnBigInt | src/logger.service.ts:207-222 | `debug` throws exactly when an entry of an array or object is a BigInt |
| Bodies.VerboseRecordSerializable | src/logger.service.ts:250-262 | a verbose record fails exactly when the property is a BigInt or its constructor name holds one |
| Bodies.OrdinaryRecordThrows | src/logger.service.ts:250-262 | with a constructor that is not an array or object, a record fails exactly on a BigInt value |
| Bodies.VerboseFieldsSerializable | src/logger.service.ts:253-262 | of the eight fields only the shown value and the constructor name can make the record fail |
| Bodies.FlatFieldsSerializable | src/logger.service.ts:253-262 | without a BigInt in the shown value or in the constructor name every field serialises |
| Bodies.PropThrows | src/logger.service.ts:235 | an object with an enumerable property that does not serialise does not serialise |
| Bodies.PropsSerializable | src/logger.service.ts:235 | an object whose property values all serialise serialises |
| Bodies.VerboseDetailsSerializable | src/logger.service.ts:266-267 | each verbose record fails exactly when its inspected property is a BigInt or its constructor name holds one |
| Bodies.WrapperFails | src/logger.service.ts:234-235 | the `{type, value}` wrapper fails exactly on a BigInt |
| Bodies.VerboseFailsOnlyOnBigInt | src/logger.service.ts:226-267 | `verbose` throws exactly when the value is a BigInt or the record of one of its inspected properties holds one |
| Logging.Print | src/logger.service.ts:114-119 | defines the line an installed format prints, from its closed-over values alone |
| Logging.Row | src/logger.service.ts:122-125 | defines the format `logMessage` installs: the timestamp, the upper-cased level, prefix and message, and the location |
| Text.PadEnd | src/logger.service.ts:117 | the string is kept as its prefix and followed only by the fill; the result is the width or the string's own length in code units, whichever is larger; a string already that long is unchanged |
| Text.Trim | src/logger.service.ts:12 | the result is a slice of the string with only white space before and after it, and it neither starts nor ends with white space |
| Text.StartsWithPrefix | src/logger.service.ts:16 | `startsWith` holds for a string followed by anything, and a string that starts with a prefix is that prefix followed by the rest |
| Text.ContainsSlice | src/logger.service.ts:17-19 | `includes` holds exactly when the text is a contiguous slice of the string |
| Text.Decimal | src/logger.service.ts:242 | the decimal text of an array index is a non-empty digit string with no leading zero unless it is "0", as `String(i)` writes it |
| Text.DecimalValue | src/logger.service.ts:242 | reading the decimal text back gives the number |
| Text.Split | src/logger.service.ts:12 | at least one piece, no piece contains the separator, and joining the pieces with it gives the string back |
| Text.ToUpper | src/logger.service.ts:117 | the same length, with no lower-case ASCII letter left |
| Text.ToLower | src/logger.service.ts:48 | the same length, with no upper-case ASCII letter left |
| Logging.Logger.constructor | src/logger.service.ts:156-160 | the tables and threshold follow the environment name; the banner is printed exactly when the name is "unset" in any case |
| Logging.Logger.LogMessage | src/logger.service.ts:122-127 | installs the row of this call as the format, appends it to the console when the logger's gate admits the level and to the file when the db gate does, and changes nothing else |
| Logging.Logger.Info | src/logger.service.ts:162-165 | logs the message after the info prefix |
| Logging.Logger.Success | src/logger.service.ts:168-171 | logs the message after the success prefix |
| Logging.Logger.Api | src/logger.service.ts:174-177 | logs the message after the api prefix |
| Logging.Logger.Db | src/logger.service.ts:180-183 | logs the message after the db prefix |
| Logging.Logger.Client | src/logger.service.ts:186-189 | logs the message after the client prefix |
| Logging.Logger.Warn | src/logger.service.ts:192-195 | logs the message after the warn prefix |
| Logging.Logger.Error | src/logger.service.ts:198-204 | throws, changing nothing, exactly when the error body throws; otherwise logs the body after the error prefix |
| Logging.Logger.Debug | src/logger.service.ts:207-223 | throws, changing nothing, exactly when the debug body throws; otherwise logs it; the file never changes; in production the console does not change, otherwise it gets exactly one line |
| Logging.Logger.Verbose | src/logger.service.ts:226-268 | as debug, with the verbose body |
| Logging.RowEnds | src/logger.service.ts:117 | a row whose body is prefix and message starts with the timestamp and ends with the message |
| Logging.RowColumn | src/logger.service.ts:117 | with fields that fit, the message of such a row starts at 61 code units plus the prefix's width |
| Logging.LevelRowEnds | src/logger.service.ts:125 | the row `logMessage` installs starts with the timestamp and ends with the message |
| Logging.LevelRowColumn | src/logger.service.ts:125 | with a short timestamp and location, the message of that row starts at 61 code units plus the prefix's width |
| Logging.LineEndsWithMessage | src/logger.service.ts:122-127 | every line a channel writes starts with the timestamp and ends with the message |
| Logging.ChannelMessagesAlign | src/logger.service.ts:114-137 | with a short timestamp and location, every channel's message starts at code unit 77 with a category and 67 without one |
| Logging.GlobalScope.constructor | src/logger.service.ts:288 | the `logwise` slot starts empty |
| Logging.GlobalScope.Install | src/logger.service.ts:288-298 | an empty slot is bound to the logger; an occupied slot keeps its logger, which logs the warning on the warn channel |
| Logging.GlobalScope.AssignThroughProxy | src/logger.service.ts:282-284 | an assignment through the proxy throws the rejection message and changes nothing |

## Left out

- Winston's internals, its colours and `colorize` (lines 75-108) are not modelled. A transport is the sequence of lines its gate admits. The colour keys `bd` and `discord` do not match the level names `db` and `client`, and they affect colour only.
- `Logging.Logger.Debug` and `Logging.Logger.Verbose` assume that, in production, winston writes nothing for a level absent from its table when line 126 calls it. What winston does in that case is not part of this model.
- The message argument that line 126 passes to winston is not modelled. The installed format ignores it and prints its own closed-over values.
- `dotenv.config()` and `process.env` (lines 3-5) are not modelled. The four variables are an input.
- `new Error().stack` (line 9) is an input string, and None stands for a missing stack.
- `new Date().toLocaleString()` (line 125) is an input string.
- Location.Basename: models POSIX `path.basename` only. Windows separators are not handled.
- Text.ToUpper and Text.ToLower: map ASCII letters only. Full Unicode case mapping, which can change a string's length, is not modelled.
- Strings are sequences of Unicode scalar values, so lone surrogates are not representable.
- Values.ConstructorName: reports "Function" for every function. JavaScript reports "AsyncFunction", "GeneratorFunction" or "AsyncGeneratorFunction" for the other kinds of function, which the model does not distinguish. The constructors of primitives are the built-in ones; a reassigned `String.prototype.constructor` and the like are not modelled.
- Values.Summarize: a function found as an array's `constructor` is taken to be a class derived from `Array` whose prototype is the link that holds it; a plain function without `Symbol.species` (where JavaScript builds a plain array) and a `Symbol.species` defined on a constructor object are not modelled. A `map` method overridden on the chain before `Array.prototype` is not modelled either. The only caller uses depth 0, where no array is rebuilt.
- Json.Serialize: does not model `toJSON` methods, getters or cyclic values. Values are finite trees without sharing.
- A number's text is taken as given: `String(x)` and its JSON text coincide for finite numbers, and `NaN` and the infinities become `null`.
- `Array.prototype` lists only `constructor`, not the array methods. The real `Object.getOwnPropertyNames(Array.prototype)` lists about forty names, each of which `verbose` would print as one more record.
- Bodies.VerboseDetails: models `extractDetails` at its default depth 1, the only depth it is called with. The depth-0 branch (line 240) is never reached.
- The `get` trap of the proxy (lines 276-281) only binds methods to the logger, so calls through `logwise` act on the logger itself. It is not modelled separately.
- A value already in `globalThis.logwise` that is not a logger is not modelled. The slot holds a logger or nothing.
- Logging.GlobalScope.Install: `Object.defineProperty` making the slot read-only is modelled only as "the slot never changes once bound".
- The banner's text is reproduced as the source writes it, including the spelling "secutiry" (line 42).
