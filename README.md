# Interactive Brokers account-summary extractor, modelled in Dafny

The extractor `IBAccountSummary` is driven by the Interactive Brokers client
library through callbacks. When the gateway reports the next valid id, the
extractor stores it as its request id. It then asks for an account summary
(all accounts, a fixed list of five tags) and for the server time. The
gateway streams one `accountSummary` callback per account and tag. The
extractor folds each one into a per-account record:

- a missing record is created with an empty currency;
- a non-empty currency replaces the stored one;
- the tag then takes its value.

`currentTime` stores the server time. `accountSummaryEnd` stamps that time
onto every record and sets the completion flag.

The project has two modules:

- `IBAccountSummary` (`account_summary.dfy`) holds the values: record values
  `Val` (a string, or the integer time), outbound requests `Req`, callbacks
  `Event`, and the whole field set `State`. It gives a pure specification of
  one callback (`Apply`, built from `Upsert` and `Stamp`) and of a stream of
  callbacks (`Run`). It also holds the class `App`, whose fields are the
  extractor's fields. Its methods, one per callback, update those fields in
  place. Each method's contract ties the new fields to `Apply` of the old
  ones. Outbound requests to the vendor are entries appended to the log
  `sent`.
- `SummaryProperties` (`summary_properties.dfy`) proves what holds over whole
  streams of callbacks:
  - last write wins per tag;
  - an empty currency never overwrites a stored one;
  - nothing is ever deleted;
  - the completion flag is set exactly when an end-of-summary arrived;
  - every record is stamped with the last server time;
  - a second end re-stamps;
  - the request id carried by callbacks is ignored;
  - each request-id report issues both requests again, and the request id
    is the last one reported.

  It also checks the example sessions against their expected snapshots.

Points of the code's behaviour that the model reproduces:

- `accountSummary` and `accountSummaryEnd` do not filter on `reqId`
  (`ReqIdIgnored`).
- `accountSummaryEnd` may run more than once. Each run re-stamps every record
  with the current time, and setting the flag again changes nothing
  (`EndAgainRestamps`, `DoneIffEnd`).
- The server-time request is sent after the account-summary request, so the
  end of the summary can arrive before any server time. Every record is then
  stamped with the initial time 0 (`EndBeforeServerTimeStampsZero`).
- A tag named `"currency"` or `"time"` really collides with the special keys.
  The tag is written after the currency rule, so its value wins, even an
  empty one (`CurrencyTagOverridesCurrency`).

## Model

| member | source | states |
|---|---|---|
| `IBAccountSummary.Initial` | data_ingestion/extractors/ibkr/IBAccountSummary.py:18-26 | the initial fields: no accounts, server time 0, request id 0, completion flag unset, nothing sent; every record well formed |
| `IBAccountSummary.Upsert` | data_ingestion/extractors/ibkr/IBAccountSummary.py:36-43 | the account exists afterwards and its tag holds the new value whatever was stored; no other account changes; the record's keys are the old ones (or `currency` for a new record) plus `t`; a non-empty currency replaces the stored one; an empty one keeps it, or gives `""` for a new record; every other key is unchanged; records keep a string currency |
| `IBAccountSummary.Stamp` | data_ingestion/extractors/ibkr/IBAccountSummary.py:50-54 | the same accounts; each record gains `time` equal to the given time and keeps all other keys and values |
| `IBAccountSummary.App.constructor` | data_ingestion/extractors/ibkr/IBAccountSummary.py:18-26 | fields start empty or zero, the flag unset, and equal `Initial()` |
| `IBAccountSummary.App.Start` | data_ingestion/extractors/ibkr/IBAccountSummary.py:59-65 | appends one account-summary request under the stored request id, for "All" and the five tags |
| `IBAccountSummary.App.NextValidId` | data_ingestion/extractors/ibkr/IBAccountSummary.py:28-34 | request id becomes the reported id; the log grows by the account-summary request and then the server-time request; accounts, time and flag unchanged |
| `IBAccountSummary.App.AccountSummary` | data_ingestion/extractors/ibkr/IBAccountSummary.py:36-43 | accounts become `Upsert` of the old accounts, whatever the request id; every other field unchanged |
| `IBAccountSummary.App.CurrentTime` | data_ingestion/extractors/ibkr/IBAccountSummary.py:45-48 | server time becomes the reported one; accounts, request id, flag and log unchanged |
| `IBAccountSummary.App.AccountSummaryEnd` | data_ingestion/extractors/ibkr/IBAccountSummary.py:50-57 | the loop over the accounts leaves them equal to `Stamp` of the old accounts with the stored time, and the flag is set |
| `IBAccountSummary.Apply` | data_ingestion/extractors/ibkr/IBAccountSummary.py:28-57 | one callback never removes an account, never clears the completion flag, and only appends to the request log |
| `IBAccountSummary.Run` | data_ingestion/extractors/ibkr/IBAccountSummary.py:28-57 | a stream of callbacks, delivered in order, never removes an account, never clears the flag, and only appends to the request log |
| `SummaryProperties.RunKeepsWellFormed` | data_ingestion/extractors/ibkr/IBAccountSummary.py:39-43 | after any stream every record still has a string currency |
| `SummaryProperties.RunNeverDeletes` | data_ingestion/extractors/ibkr/IBAccountSummary.py:36-57 | after any stream the accounts are exactly the earlier ones plus those named by updates; no record present before the stream loses a key |
| `SummaryProperties.UnwrittenKeyKept` | data_ingestion/extractors/ibkr/IBAccountSummary.py:36-57 | a key of an account that no callback of the stream writes keeps its value |
| `SummaryProperties.LastWriteWins` | data_ingestion/extractors/ibkr/IBAccountSummary.py:43 | after a stream, a tag holds the value of the last update that wrote it |
| `SummaryProperties.LastCurrencyWins` | data_ingestion/extractors/ibkr/IBAccountSummary.py:41-42 | the currency is the last non-empty currency supplied for the account, if nothing writes the currency key after it |
| `SummaryProperties.EmptyCurrencyNeverClobbers` | data_ingestion/extractors/ibkr/IBAccountSummary.py:41-42 | updates with an empty currency (and a tag other than "currency") leave a stored currency unchanged |
| `SummaryProperties.DoneIffEnd` | data_ingestion/extractors/ibkr/IBAccountSummary.py:56-57 | the flag is set after a stream if and only if it was set before or the stream holds an end of summary; once set it stays set |
| `SummaryProperties.LastServerTimeKept` | data_ingestion/extractors/ibkr/IBAccountSummary.py:45-48 | a stream without a server-time callback leaves the stored time unchanged |
| `SummaryProperties.CompletionStampsLastServerTime` | data_ingestion/extractors/ibkr/IBAccountSummary.py:45-57 | at the end of the summary the flag is set and every record carries the same time: the last server time reported before it |
| `SummaryProperties.CompletionStampsCurrentTime` | data_ingestion/extractors/ibkr/IBAccountSummary.py:50-57 | after any prefix and an end of summary, the flag is set and every record carries the server time stored when the end arrived |
| `SummaryProperties.EndBeforeServerTimeStampsZero` | data_ingestion/extractors/ibkr/IBAccountSummary.py:25-34 | from the initial state, an end of summary that arrives before any server time stamps every record with 0 |
| `SummaryProperties.EndAgainRestamps` | data_ingestion/extractors/ibkr/IBAccountSummary.py:50-57 | a second end of summary after a new server time re-stamps every record with the new time; the flag stays set |
| `SummaryProperties.ReqIdIgnored` | data_ingestion/extractors/ibkr/IBAccountSummary.py:36-57 | replacing the request id of every update and end callback changes no field: nothing is filtered by correlation id |
| `SummaryProperties.NoReadyNoRequest` | data_ingestion/extractors/ibkr/IBAccountSummary.py:28-34 | a stream without a next-valid-id callback sends nothing and keeps the request id |
| `SummaryProperties.OneSessionTwoRequests` | data_ingestion/extractors/ibkr/IBAccountSummary.py:28-34 | a session with one next-valid-id report sends exactly the account-summary request under that id and then the server-time request, and keeps that id |
| `SummaryProperties.SentGrowsByRequests` | data_ingestion/extractors/ibkr/IBAccountSummary.py:28-34 | the request log grows by exactly the account-summary and server-time requests of each next-valid-id report, in order |
| `SummaryProperties.LastReadyIdKept` | data_ingestion/extractors/ibkr/IBAccountSummary.py:28-34 | after a stream the request id is the one of the last next-valid-id report |
| `SummaryProperties.PartialWithoutEnd` | data_ingestion/extractors/ibkr/IBAccountSummary.py:50-57 | without an end of summary (the wait timed out) the flag stays unset and no record carries a time unless the gateway sent a "time" tag |
| `SummaryProperties.ExampleSession` | data_ingestion/extractors/ibkr/IBAccountSummary.py:28-57 | the session of id 1, two U1 fields (USD, then no currency), server time 1700000000, then end, yields the expected U1 record with currency USD and time 1700000000, and the two requests |
| `SummaryProperties.TwoAccountsIndependent` | data_ingestion/extractors/ibkr/IBAccountSummary.py:36-43 | interleaved updates for U1 and U2 give two records, each holding only its own tags and currency |
| `SummaryProperties.CurrencyTagOverridesCurrency` | data_ingestion/extractors/ibkr/IBAccountSummary.py:41-43 | an update whose tag is "currency" leaves its value as the currency, even an empty one, because the tag is written after the currency rule |

## Left out

- Threads and the wait: the background `app.run` receive loop, the listener thread, and `threading.Event.wait(timeout=10)`. Completion is the boolean `done`. A timeout is a stream that stops before the end of summary (`PartialWithoutEnd`).
- The vendor base classes `EClient` and `EWrapper`: the `super()` calls in each callback, `connect` and `disconnect`. Requests sent to the gateway are entries in the log `sent`. The library's routing of messages to callbacks is the pure `Apply`.
- `main` in the extractor: JSON printing and the HOST, PORT and CLIENT_ID constants. It is configuration and output.
- The loader `data_ingestion/loaders/local_datalake.py`: filesystem writes and a clock-based file name. It is pure I/O.
- The script `data_ingestion/main.py`: glue with no logic.
- Key order of Python dictionaries: records and the account map are Dafny maps, so insertion order, and the order of keys in the printed JSON, is not modelled. `IBAccountSummary.App.AccountSummaryEnd` visits the accounts in an unspecified order. Its result does not depend on that order.
- Value types: tag values and currencies are strings and the server time is an unbounded integer. The gateway's wire encoding is not modelled.
