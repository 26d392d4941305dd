# Order-reporting backend: read-query layer

A model of the read side of a small GraphQL backend. The backend serves venue order data from a
JSON file that it loads once at startup. The model covers:

- **Startup** (`Server.Server.Start`, specified by `Server.Load`). The file's text is parsed.
  Startup fails if the parser throws or if the root is not an array. Only after these checks does
  the server listen. `Start` writes the server's `data` field in the same steps as the source:
  first the text, then the parsed root.
- **`days`** (`Days.Days`). Every order's Unix-seconds `time` becomes the millisecond instant at
  which its local calendar day starts. The local clock is a fixed offset from UTC, in minutes.
  There is one entry per order, in data order, and duplicates are kept.
- **`venueNames`** (`Venues.VenueNames`). This is lodash's `uniqBy` on `venueId`: the first order
  of each venue wins, and the result stays in first-occurrence order. Each kept order is then
  projected to `{name, id}`.
- **`orders`** (`OrderList.Orders`). An optional `venueId` argument keeps only the orders with
  exactly that id. `None` stands for a null or absent argument. Every order is then projected with
  `venueName` replaced by its `venue` string.
- **`sendReport`** (`Mutation.SendReport`). A stub: it always answers `{success: true, msg: 'no msg'}`.

An order is `Model.Order`, and the dataset is a `seq<Order>`. The parsed file root is `Model.Json`.

Three facts about the code shape the model:
- `days` maps every order, so two orders on one local day give two equal entries
  (`Days.DaysKeepsDuplicates`).
- A day starts at local midnight for a fixed offset from UTC; offset 0 gives UTC.
- `sendReport` aggregates nothing and sends nothing.

## Model

| member | source | states |
|---|---|---|
| `Server.Load` | src/server.js:56-60 | loading succeeds exactly when the parser returns a root and that root is an array; the dataset is then that array; a parser failure is a syntax error; a non-array root is the "corrupt data.json, array expected as root element" error |
| `Server.Server.constructor` | src/server.js:47-52 | keeps the port, data file and frontend URI; no data is held and the server is not listening |
| `Server.Server.Start` | src/server.js:54-61 | succeeds exactly when `Load` does and fails with the same error; `data` ends as the parsed root, or as the raw text if parsing threw; on success the server is ready, its dataset is the loaded array, the `nat` result stands for the entry count that `start()` logs at line 61 (`start()` itself resolves to nothing), and it listens; a failed start does not begin listening |
| `Days.StartOfDay` | src/server.js:75-78 | the result is a local midnight (start plus offset is a multiple of 86400000 ms) and the day beginning there contains `time * 1000` |
| `Days.StartOfDayUnique` | src/server.js:75 | any local midnight whose day contains the instant equals `StartOfDay`, so the day start is uniquely determined |
| `Days.SameDayIff` | src/server.js:75 | two times get the same day start exactly when the second falls in the day that begins at the first one's start |
| `Days.Days` | src/server.js:73-81 | one entry per order (same length, no deduplication); entry i is a local midnight whose day contains order i's time |
| `Days.DaysAppend` | src/server.js:73-81 | `days` of a concatenation is the concatenation of the `days`, so order and duplicates are kept |
| `Days.DaysAt` | src/server.js:74-78 | entry i is exactly the start of the day of order i |
| `Days.DaysKeepsDuplicates` | src/server.js:73-81 | for any two positions whose orders fall in the same local day, the two entries are equal: nothing is deduplicated |
| `Venues.UniqFrom` | src/server.js:85 | the scan keeps at most as many orders as the data holds (its full behaviour is stated by `UniqFromSpec`) |
| `Venues.UniqFromSpec` | src/server.js:85 | starting from a set of seen ids, the kept orders have distinct ids; their ids are exactly the unseen ids in the data; each kept order is the first order of its venue; kept orders are in first-occurrence order |
| `Venues.VenueNames` | src/server.js:83-93 | no two entries share an id; the set of ids is exactly the set of `venueId`s in the data; each entry's name is the `venueName.venue` of the first order with that id; entries are in first-occurrence order |
| `Venues.VenueNamesCount` | src/server.js:84-92 | there are exactly as many entries as distinct `venueId`s |
| `OrderList.Flatten` | src/server.js:100-104 | restoring the nested record from the projection gives back the order: `venueName` becomes its `venue` string and `time`, `sumTotal`, `tipSum`, `venueId` are unchanged |
| `OrderList.FlattenAll` | src/server.js:100-104 | projecting every order loses nothing: restoring the projections gives the same sequence, of the same length and order |
| `OrderList.WithVenue` | src/server.js:97-98 | every kept order has exactly the requested `venueId` |
| `OrderList.WithVenueSpec` | src/server.js:97-98 | the filter result is an order-preserving subsequence of the data; every order of that venue occurs in it as often as in the data |
| `OrderList.Orders` | src/server.js:94-106 | without a `venueId`, the projections restore to the whole dataset (same length, same order); with one, every entry has that id, and the restored entries are the data's subsequence of exactly that venue's orders, each with its multiplicity |
| `OrderList.OrdersNoMatch` | src/server.js:96-99 | filtering on a `venueId` that no order carries gives an empty list |
| `Mutation.SendReport` | src/server.js:65-70 | always reports success with the message "no msg" |
| `Mutation.SendReportIgnoresArguments` | src/server.js:65-70 | the answer is the same for every email, day start and venue id |

## Left out

- Reading the data file and `JSON.parse`: file I/O and a foreign parser. The file's text and the parser are parameters of `Start` and `Load`. The parser is a total function that yields `None` where `JSON.parse` throws.
- The shape of the array elements: the source does not validate them. The model assumes every element is an order with the five fields. A missing `venueName` makes a resolver throw a `TypeError`, and the model does not capture this.
- Fields beyond the five named ones: the source's `...order` spread copies any extra fields of an order, and `venueName` may carry more than `venue`. The model's records hold only the named fields.
- Days.StartOfDay: does not model moment's local timezone with daylight-saving changes. The local clock is a fixed UTC offset parameter.
- The `desc` field of a day (`moment.format()`): locale- and timezone-dependent string formatting.
- Amounts (`sumTotal`, `tipSum`) are `real`, not IEEE doubles. The server only copies them.
- Days.StartOfDay: does not model times beyond ±8.64e12 s. There, `time * 1000` exceeds the ±8.64e15 ms range of a JavaScript date, moment's date is invalid and `start` is NaN, while the model returns a finite midnight for every integer time.
- The GraphQL schema, its serialisation of `start` and `time` to strings, express, CORS and the HTTP listener. `listening` stands for the application being created and told to listen on the port.
- Logging, and the process bootstrap in src/cli.js (environment-variable checks, error handlers).
- Report aggregation over a day window and mail dispatch: the source has neither; `sendReport` is a stub that ignores its arguments.
