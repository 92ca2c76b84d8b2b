# kerasai/php-mysql: connection and connection factory

A Dafny model of the two classes of this small PHP database layer.

- **Connection** (`src/Connection.php`) validates a configuration array, fills in defaults, builds a DSN and opens a PDO handle. It keeps a cache of prepared statements keyed by the query text. Its column helper collects first-column values until it fetches a falsy one.
- **ConnectionFactory** (`src/ConnectionFactory.php`) keeps a configuration per connection name. It builds each named Connection lazily, once, on first request.

## Layout

- `wrappers.dfy`, module `Wrappers`: `Option` and `Result`. The source's exceptions become `Err` values.
- `php_values.dfy`, module `PhpValues`: the PHP semantics the code relies on.
  - PHP truthiness, the test behind `empty()` and `while ($v = ...)`.
  - Reads of absent array keys, which give null.
  - String interpolation, with integer-to-decimal conversion and its inverse.
- `pdo.dfy`, module `Pdo`: the driver, reduced to what the connection can observe.
  - `Driver.Prepare` yields a new `Statement` for exactly the text it is given. The statement records the handle that prepared it. A ghost log records every prepare call.
  - `Statement.Execute` records its parameters. `Statement.FetchColumn` hands out first-column values one at a time, then `false`.
  - What the database answers is an input: the `rows` argument of `Execute` and `GetCol` is the first column of the result set.
- `connection.dfy`, module `Connections`: the parts of the `Connection` class.
  - Validation (`FirstMissing`, `Connection.VerifyConfig`), the default merge (`MergeDefaults`), the DSN (`Dsn`, with its reading `ParseDsn`).
  - The column truncation (`TruthyPrefix`).
  - The `Connection` class. Its fields are `pdo`, `prefix` and `stmts`. Its invariant `Valid()` says two things. Every cached statement was prepared by the connection's own driver from its own key. The driver was asked to prepare each cached text exactly once, and nothing else.
- `connection_factory.dfy`, module `Factories`: the `ConnectionFactory` class. It holds the `config` and `connections` maps. Its invariant `Valid()` says every stored connection is valid and that two different stored connections share no connection or driver object. Since every cached statement belongs to its connection's driver, two connections never share a cached statement either (`CachesApart`). So a query run on one connection leaves the other connections, their drivers and their cached statements unchanged (`QueryLeavesOthersAlone`).

### Where the model follows the code

- The `prefix` setting is stored by the constructor (`src/Connection.php:49`) and read nowhere; `Connection.prefix` is stored only.
- The statement cache is keyed on the raw query text (`src/Connection.php:173-176`); `Prepare` caches by the unmodified text.
- `getCol` keeps its legacy truncation. It stops at the first falsy value (`""`, `"0"`, `0`, `null`, `false`, an empty array) even when rows remain.

## Model

| member | source | states |
|---|---|---|
| `PhpValues.ParseIntToString` | src/Connection.php:39-43 | The decimal text interpolated for an integer port reads back as the same integer, so the conversion loses nothing. |
| `Connections.FirstMissingIsFirstEmpty` | src/Connection.php:58-64 | Validation fails iff some required key is absent or PHP-empty. The reported key is the earliest such key in checking order; every key before it is present and truthy. |
| `Connections.Connection.VerifyConfig` | src/Connection.php:58-64 | The loop over `user`, `password`, `dbname` passes iff none is empty. Otherwise it fails with `MissingProperty` naming the first empty key in that order. |
| `Connections.MergeDefaults` | src/Connection.php:36-41 | The merged keys are the caller's keys plus `driver`/`host`/`port`/`prefix`. A caller's key keeps its value, even a null one. An absent one gets `mysql`/`localhost`/`3306`/`""`. No other key changes. |
| `Connections.MergeKeepsValidation` | src/Connection.php:33-41 | No required key has a default, so validating before or after the merge gives the same verdict and the same reported key. |
| `Connections.DsnRoundTrip` | src/Connection.php:43 | The DSN `driver:host=H;port=P;dbname=D` is unambiguous. When the driver has no `:` and host and port have no `;`, reading it back yields exactly the four settings. |
| `Connections.IntPortFitsDsn` | src/Connection.php:39-43 | An integer port's text contains neither `;` nor `:`, so it meets the round trip's condition. |
| `Connections.DefaultDsn` | src/Connection.php:36-43 | Without driver, host and port, the DSN's fields are `mysql`, `localhost`, `3306` and the interpolated dbname. |
| `Connections.Connection.constructor` | src/Connection.php:35-49 | For a validated config: the driver opens with the DSN of the merged config, the config's user and password, raise-on-error and associative fetch. The stored prefix is the merged `prefix`. The cache and the prepare log start empty. |
| `Connections.Connection.New` | src/Connection.php:32-50 | Construction fails iff validation fails, with the same error, and then builds nothing. Otherwise the new connection is valid, its cache and prepare log are empty, its prefix is the merged `prefix`, and its driver holds the merged config's DSN, the config's user and password, raise-on-error and associative fetch. |
| `Connections.Connection.Prepare` | src/Connection.php:171-177 | A cached text returns its stored statement, and the cache and the driver's prepare log stay unchanged. An uncached text calls the driver's prepare exactly once and adds exactly that key. The returned statement was prepared from the raw text. Existing entries are never replaced. |
| `Connections.Connection.Execute` | src/Connection.php:78-82 | Returns the statement `Prepare` would return for the text, run once more with the given parameters. Every other cached statement is unchanged. |
| `Connections.Connection.GetCol` | src/Connection.php:127-134 | Returns the longest all-truthy prefix of the fetched first-column values, in fetch order. The rows after the first falsy value stay unfetched. The cache and prepare log change as in `Prepare`: a cached text keeps its statement, an uncached one gets a fresh statement under exactly that key. That statement has run once more with `params`, and every other cached statement is unchanged. The driver and the stored prefix stay the same. |
| `Connections.TruthyPrefixIsLongest` | src/Connection.php:129-133 | The collected column is a prefix of the fetched values and all its values are truthy. It ends at the input's end or just before the first falsy value. |
| `Connections.TruthyPrefixUnique` | src/Connection.php:129-133 | Conversely, any prefix with those properties is the collected column. |
| `Connections.PrepareCallsMatchCache` | src/Connection.php:173-176 | For a valid connection, the number of driver prepare calls equals the number of cached texts: one call per distinct text. |
| `Connections.ExecuteTwice` | src/Connection.php:78-82 | Two executes of one text return the same statement object and add at most one driver prepare call. |
| `Connections.LegacyTruncation` | src/Connection.php:127-134 | A fetched column `[1, 0, 3]` yields `[1]`. |
| `Factories.ConnectionFactory.constructor` | src/ConnectionFactory.php:19-21 | The name-to-configuration map is stored as given. The connections map starts empty. |
| `Factories.ConnectionFactory.GetConfig` | src/ConnectionFactory.php:52-57 | Fails with `NoConfiguration(name)` iff `name` has no configuration. Otherwise returns the stored configuration. |
| `Factories.ConnectionFactory.SetConfig` | src/ConnectionFactory.php:69-72 | The configuration under `name` becomes `c` and every other entry is kept. The connections map is untouched. The factory itself is returned. |
| `Factories.ConnectionFactory.GetConnection` | src/ConnectionFactory.php:34-39 | A name already connected returns the stored instance and builds nothing. Otherwise a missing config fails with `NoConfiguration` and an invalid one with the first `MissingProperty`, and either failure leaves the map unchanged. A valid config builds one fresh connection with the constructor's state and stores it under `name`; its prepare log is empty. In the connected and failure cases the factory's footprint is unchanged. Existing entries are never replaced or removed. |
| `Factories.ConnectionFactory.Store` | src/ConnectionFactory.php:36 | The check-then-insert's assignment: the new connection is stored under the name, every other entry is kept, and the factory stays valid. |
| `Factories.QueryStored` | src/ConnectionFactory.php:34-39 | Running a query on a stored connection keeps the factory valid and leaves its maps unchanged. |
| `Factories.CachesApart` | src/Connection.php:173-176 | In a valid factory, two different stored connections never hold the same statement object: each caches only statements its own driver prepared. |
| `Factories.QueryLeavesOthersAlone` | src/ConnectionFactory.php:34-39 | A query on one stored connection keeps the factory valid. Every other stored connection, its driver and each statement in its cache are unchanged. |
| `Factories.ReuseAfterQuery` | src/ConnectionFactory.php:34-39 | Get a connection, run a query on it, get it again: the second request returns the identical instance. |
| `Factories.SetConfigAfterConnect` | src/ConnectionFactory.php:34-72 | `setConfig` on a connected name does not change the connection `getConnection` returns for it. |
| `Factories.ConfigureOnDemand` | src/ConnectionFactory.php:34-72 | An unconfigured name fails. After `setConfig` with a valid config, the first request succeeds and the next returns the identical instance. |

## Left out

- Opening a real handle, compiling and running SQL, and binding parameters are not modelled: they belong to PDO. The driver always succeeds, so driver exceptions are not modelled. In the source, a failure to open or to prepare propagates before any assignment to the connections map or the cache. A failure in `$stmt->execute` (`src/Connection.php:80`) comes after `prepare` has already stored the new statement (`src/Connection.php:174`), so the cache keeps that entry.
- `getRow`, `getRows`, `getField` and `lastId` are not modelled. Each passes straight through to the driver and has no logic of its own.
- Rows are represented only by their first column, the part `getCol` reads. Row shapes and fetch modes are outside the model.
- Parameters are positional lists. Named placeholders and PDO's binding rules are not modelled.
- The `array $params = NULL` default of `getRows`/`getCol` is not modelled; the model always passes a list. In the source, calling either without parameters forwards NULL into `execute`'s non-nullable `array $params` (`src/Connection.php:78`, `111-112`, `127-128`), which raises a TypeError.
- Exception messages are not modelled. Only the kind of error and the key or name it reports are.
- PHP floats are not among the modelled values. Interpolating an array yields `"Array"`, and the notice PHP emits with it (a warning since PHP 8) is not modelled.
- PHP's conversion of numeric-string array keys to integers is not modelled. It maps query texts one-to-one, so a cache keyed by `string` behaves the same.
- The factory's configurations are typed as configuration arrays. A non-array entry in the constructor's map, which PHP would reject with a type error when building the connection, is not modelled.
- `Connections.ExecuteTwice`: states at most one extra prepare call rather than the exact count. The exact count per case is in `Connections.Connection.Execute`.
- The defaults `array $params = []` of `execute` (`src/Connection.php:78`) and `array $config = []` of the factory's constructor (`src/ConnectionFactory.php:19`) are not modelled: callers pass `[]` or `map[]` explicitly.
