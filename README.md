# graphite.client — metric path builder, modelled in Dafny

`graphite.client` is a small Node.js wrapper around a Graphite client. Its
constructor `GraphiteClient(env, app, server)` validates three identity
tokens, substitutes the default server name `bbserver` when none is given,
and caches the metric path prefix `apps.<env>.<app>.<server>`. Its method
`write(source, type, client, value, callback)` checks that a callback was
passed (throwing otherwise), validates the `type` and `client` tokens and the
value, reports a validation failure through the callback, and otherwise hands
the one-entry mapping `{<prefix>.<source>.<type>.<client>: value}`, the
current time and the callback to the underlying Graphite connection.

The model has two modules:

- `MetricPaths` (`paths.dfy`): the path separator `.`, JavaScript `!x` on an
  argument that is absent (`undefined`/`null`, modelled as `None`) or a
  string, the naming rule "non-empty and dot-free", `Array.prototype.join('.')`
  (which renders an absent element as the empty string) and
  `String.prototype.split('.')`, with the lemmas that join and split are
  inverse to each other on dot-free tokens.
- `Graphite` (`graphite.dfy`): the error messages and constants of index.js;
  `ResolveIdentity`, the constructor's decision as a function; the
  `GraphiteClient` class, whose `client` and `metricPathPrefix` fields are set
  once (a static `Create` stands for the throwing JavaScript constructor and
  returns `Err(ParamErrorMsg)` where the source throws); `GraphiteClient.Write`;
  and the `Sink` class standing for the connection returned by
  `graphite.createClient`, reduced to the log of the submissions it receives.
  The wall clock `Date.now()` is the `now` parameter of `Write`.

`Write` ends in one of three ways: `Threw(MetricErrorMsg)` when the callback
is missing (checked before anything else), `Reported(callback,
MetricErrorMsg)` when `client` or `type` is falsy or dotted or the value is
not a number (the sink is not touched), and `Submitted` when the sink
received exactly one new submission. The `source` token is not checked, as in
index.js; `KeySegmentCount` shows that a dotted source is exactly what makes a
key split into more than seven segments, and `KeyInjective` that the key still
determines source, type and client when it does.

The repository's test file (test/index.test.js) expects a prefix without the
`apps` token and calls `write` with a `(client, event, value, timestamp,
callback)` argument order; both disagree with index.js, and the model follows
index.js.

## Model

| member | source | states |
|---|---|---|
| `MetricPaths.Falsy` | index.js:34 | JavaScript `!x` on an argument that is absent or a string; it holds exactly when `Array.prototype.join` would render the argument as the empty string |
| `MetricPaths.IsToken` | index.js:38-40 | the naming rule, which rejects `x` when `!x \|\| x.indexOf('.') >= 0` (a definition; `TokenIsOneSegment` states what it guarantees) |
| `MetricPaths.JoinElement` | index.js:85-90 | how `join` renders one element: `undefined` and `null` become the empty string, so an absent source leaves an empty segment (a definition) |
| `MetricPaths.Join` | index.js:47-52 | `Array.prototype.join('.')`: the elements with one `.` between neighbours, `""` for no elements (a definition; `SplitJoin`, `JoinSplit`, `JoinDots` and `JoinAppend` state its properties) |
| `MetricPaths.Split` | index.js:85-90 | `String.prototype.split('.')`, used to read a joined path back: every string, including `""`, gives at least one piece |
| `MetricPaths.SplitPieces` | index.js:85-90 | a string splits into one more piece than it has separators, and no piece contains a separator |
| `MetricPaths.TokenIsOneSegment` | index.js:38-40 | the naming rule accepts exactly the non-empty strings that split into themselves alone, so an accepted token is read back as one path segment |
| `MetricPaths.JoinDots` | index.js:47-52 | the join of a non-empty list of dot-free parts has exactly one separator fewer than it has parts |
| `MetricPaths.SplitJoin` | index.js:47-52 | joining non-empty lists of dot-free tokens with `.` and splitting the result returns the tokens, which is why the constructor's naming rule makes the prefix unambiguous |
| `MetricPaths.JoinSplit` | index.js:85-90 | joining the pieces of any string with `.` restores the string: split and join are inverse in this direction with no condition |
| `MetricPaths.JoinInjective` | index.js:85-90 | two non-empty lists of dot-free tokens with the same join are the same list (non-empty matters: `[]` and `[""]` both join to `""`) |
| `MetricPaths.JoinAppend` | index.js:85-90 | joining the cached prefix's join with further tokens equals one flat join of all tokens |
| `MetricPaths.SplitConcat` | index.js:85-90 | for any strings `a` and `t`, splitting `a.t` gives the pieces of `a` followed by the pieces of `t`: a separator placed between two joined elements always ends a piece |
| `Graphite.ResolveServerName` | index.js:34-36 | the server name the constructor goes on with is never falsy, and it passes the naming rule exactly when the given name is falsy (so `bbserver` is used) or dot-free |
| `Graphite.ResolveIdentity` | index.js:34-42 | construction fails, with the parameter error message, exactly when env or app is falsy or dotted or a given server name is dotted; on success the identity holds env, app and the given server name or `bbserver` when it was falsy, all valid tokens |
| `Graphite.AbsentServerIsDefault` | index.js:34-36 | an absent or empty server name behaves exactly like passing `bbserver` |
| `Graphite.ResolvedPrefix` | index.js:47-52 | after successful construction the prefix splits into `apps`, env, app and the resolved server name |
| `Graphite.Identity.Prefix` | index.js:47-52 | the cached prefix starts with `apps.`, and for a valid identity it holds exactly three separators |
| `Graphite.PrefixSegments` | index.js:47-52 | the prefix of a valid identity splits into its four tokens |
| `Graphite.PrefixInjective` | index.js:38-52 | distinct valid identities never produce the same prefix |
| `Graphite.WriteArgumentsValid` | index.js:77-79 | `write`'s validation: `client` and `type` pass the naming rule and the value is a number (a definition; `GraphiteClient.Write` states what follows from it) |
| `Graphite.MetricKey` | index.js:85-90 | the key of a metric starts with the client's prefix followed by `.`, and dot-free source, type and client add exactly three separators to those of the prefix |
| `Graphite.JoinOfFour` | index.js:85-90 | a four-element join is the elements with a `.` between neighbours, and its separator count is theirs plus three |
| `Graphite.KeySplitsAtTail` | index.js:85-90 | with dot-free type and client, the pieces of a key are the pieces of `prefix.source` followed by the type and the client |
| `Graphite.KeySegments` | index.js:85-90 | with a dot-free source, a key splits into exactly `apps`, env, app, server, source, type, client |
| `Graphite.KeySegmentCount` | index.js:77-90 | a key splits into seven plus the number of dots in the source pieces, so it has seven segments if and only if the unchecked source is dot-free |
| `Graphite.KeyInjective` | index.js:85-92 | under any one prefix, two writes whose type and client pass the naming rule share a key only if they have the same type, the same client and the same source as `join` renders it, whether or not the unchecked source contains dots |
| `Graphite.GraphiteClient.constructor` | index.js:46-52 | a fresh sink connection with no submissions and the prefix of the given valid identity cached |
| `Graphite.GraphiteClient.Create` | index.js:27-53 | the constructor: `Err(ParamErrorMsg)` exactly when `ResolveIdentity` fails, otherwise a fresh client, with a fresh empty sink, whose cached prefix is that of the resolved identity |
| `Graphite.GraphiteClient.Write` | index.js:64-95 | a missing callback throws the metric error whatever the other arguments; invalid type, client or value reports the metric error to the callback and leaves the sink's log unchanged; otherwise exactly one submission is appended: the one-entry map from the composed key to the value, `now`, and the caller's callback |
| `Graphite.Sink.constructor` | index.js:46 | the connection `graphite.createClient` returns starts with no submissions |
| `Graphite.Sink.Write` | index.js:94 | the sink records exactly the submission it is given |
| `Graphite.RepeatedWrites` | index.js:71-94 | two identical writes on one client have the same outcome; they submit exactly when a callback is given and the arguments are valid, and then the log keeps its earlier entries and gains two submissions with the same `MetricKey` mapping and callback, stamped `first` and `second`; failed writes leave the sink alone |

## Left out

- The `graphite` library and the network behind `self.client.write` are not modelled; the sink is a log of submissions, and what it later does with the callback is its own affair.
- The connection string `'plaintext://' + HOST + ':' + PORT + '/'` and the `process.env` reads of `GRAPHITE_HOST` and `GRAPHITE_PORT` are environment input; index.js never checks them, and the model neither checks nor stores them.
- `Date.now()` is the `now` parameter of `Write`.
- The dual calling convention (calling `GraphiteClient` without `new`) has no behaviour beyond construction and is not modelled.
- Arguments are modelled as absent or strings. A truthy number, boolean or plain object passed as a token has no `indexOf`, so index.js throws a `TypeError` at lines 38-40 or 77-78. An array does have `indexOf` (`['a.b'].indexOf('.')` is -1), so it passes the naming rule and `join` renders it as its own comma-joined text (`a.b` here), dots included. A non-string source is likewise converted to text by `join`. None of these is modelled.
- `metricValue` is modelled as either a number (a `real`) or something else; NaN and the infinities, which also have `typeof` `'number'`, are not distinguished.
- `write` returns whatever `self.client.write(...)` returns (index.js:94); the sink's return value is not modelled, and a submission is the `Submitted` outcome.
- A callback that is truthy but not a function makes `callback(METRIC_ERROR_MSG)` at index.js:80 throw a `TypeError` instead of reporting the error; the model takes every given callback to be callable.
- The callback is an opaque value compared by identity; calling it (in the reported case) is represented by the `Reported` outcome, and its return value, which index.js passes back, is not modelled.
- Time bucketing (year/month/day/hour segments) does not occur in index.js and is not modelled.
