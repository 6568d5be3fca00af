# Expense tracker store and handlers, in Dafny

A model of the expense-tracking backend in `server.js`. The server keeps a JSON
document `{ expenses: [...] }` in one file. Each route handler reads the whole
document, changes the loaded copy in memory, and (for the mutating routes)
writes the whole document back:

- `Expenses.dfy` (module `Expenses`): an expense is a map from field names to a
  small `Value` type (integer, string, anything else). It holds the pure
  expressions of the handlers. These are the record literal of a create, the
  spread merge of an update, `findIndex` and `filter`. It also holds the lemmas
  about them.
- `Server.dfy` (module `Server`): `ReadDatabase` (the read-or-empty fallback), the
  `Database` class (the loaded `db` object, changed in place), and the `Store`
  class (the file). `Store` has one method per route. Each method's contract
  gives the reply, its HTTP status (through `Status`) and the new file content
  as functions of the old content. Four client methods state the multi-call
  properties: create order, repeated delete, an update that finds nothing, and a
  create after a failed read dropping the stored records.

The clock values (`Date.now()`, `toISOString()`) are method parameters. The
outcomes of each call's file read and file write are boolean parameters. So a
read that fails on a good file, and the empty list it then yields, is part of
the model. The result of `parseInt` on the path id is an `Option<int>`, where `None` stands for NaN.

The record literal in `server.js:62-66` puts `id: Date.now()` before
`...req.body` and `date` after it. So a caller's `id` replaces the timestamp,
while a caller's `date` is always replaced. The model follows the code, not
the reading that both stamped fields always win.

## Model

| member | source | states |
|---|---|---|
| `Expenses.HasId` | server.js:80 | the strict `id` test of delete and update (also server.js:93): a NaN path id, a record without `id` and a record whose `id` is not an integer (a string `"5"` included) never match |
| `Expenses.NewExpense` | server.js:62-66 | the new record has every body key plus `id` and `date`; `date` is always the server's time string; `id` is the body's `id` when it has one, the timestamp otherwise; every other body field is kept |
| `Expenses.Merge` | server.js:99 | the merged record has every key of the old record and of the body; body values win on shared keys; other keys keep their old values |
| `Expenses.FindIndex` | server.js:93-95 | the result is -1 exactly when no record's `id` strictly equals the path id; otherwise it is the first index whose `id` matches |
| `Expenses.WithoutId` | server.js:80 | the result keeps exactly the records whose `id` is not strictly equal to the path id; it is never longer; it is the input itself when nothing matches |
| `Expenses.WithoutIdAppend` | server.js:80 | filtering a concatenation is the concatenation of the filtered parts, so kept records stay in their original relative order |
| `Expenses.WithoutIdIdempotent` | server.js:80 | filtering twice by the same id gives what filtering once gives |
| `Expenses.UnparsedIdMatchesNothing` | server.js:79-80 | a NaN path id is found nowhere and deletes nothing |
| `Expenses.UpdateChangesFirstMatchOnly` | server.js:93-99 | an update keeps the length and every record except the first match; that record keeps all old keys, gains all body keys, and body values win |
| `Expenses.RepeatedUpdateIsIdempotent` | server.js:93-99 | repeating an update whose body does not change the `id` finds the same record and changes nothing more |
| `Expenses.UpdateMayRewriteId` | server.js:99 | an update body with a different `id` makes the record unreachable by the id it was found under |
| `Server.Status` | server.js:49-105 | the reply codes of the four routes: 201 exactly for a created record, 404 exactly for an update that found nothing, 500 exactly for a failure, 200 for a listing, a delete and an update |
| `Server.ReadAttempt` | server.js:27-32 | a failed read of the file is seen as no document, whatever the file holds; a successful read sees the file's content |
| `Server.ReadDatabase` | server.js:26-33 | a missing, unreadable or unparsable file reads as the empty document; otherwise the stored document is returned as is |
| `Server.Database.constructor` | server.js:51 | the loaded `db` holds the records the read returned |
| `Server.Database.Unshift` | server.js:67 | the new record goes in front; the old records follow in their old order |
| `Server.Store.WriteDatabase` | server.js:37-44 | a successful write replaces the file with the whole document; a failed write is reported to the caller |
| `Server.Store.List` | server.js:49-56 | GET replies 200; after a successful read it returns the stored records verbatim and in order; after a failed read, or for a missing or corrupt file, it returns none |
| `Server.Store.Create` | server.js:59-73 | POST replies 201 with the new record, and the file then holds it in front of the records this call read (none when its read failed); a failed write replies 500 and leaves the file as it was; `Status` gives 201 or 500 accordingly |
| `Server.Store.Delete` | server.js:76-86 | DELETE writes back the records this call read (none when its read failed) without those whose `id` matches, and replies success whether or not anything matched (200); a failed write replies 500 |
| `Server.Store.Update` | server.js:89-105 | PUT with no match among the records this call read (always the case when its read failed) replies 404 and writes nothing; otherwise it writes the list with the first match merged, and replies 200 with the merged record; a failed write replies 500 |
| `Server.CreateTwiceListsNewestFirst` | server.js:62-68 | creating E1 then E2 lists E2, then E1, then the earlier records |
| `Server.DeleteTwiceIsIdempotent` | server.js:76-86 | two deletes of the same id both report success, and the file ends as after one delete |
| `Server.UpdateUnknownKeepsListing` | server.js:93-97 | an update that finds no record replies not-found and leaves the listing unchanged |
| `Server.FailedReadThenCreateDropsRecords` | server.js:26-33 | a create whose read fails but whose write succeeds replies 201 and leaves only the new record in the file, dropping every stored one |

## Left out

- Express setup, CORS, JSON body parsing, static files and `app.listen` (server.js:1-13, 107-113): HTTP plumbing around the handlers.
- `initDatabase` (server.js:16-23): it only decides by `fs.access` whether to create an empty file. The model's reads already treat a missing file as the empty document.
- JSON text: parsing, `JSON.stringify(..., null, 2)` formatting, and the key order inside a record. The file is modelled as a parsed document, or `None` when it cannot be read or parsed.
- Parsed JSON that is not `{ expenses: [...] }`. For a top-level `null` every route fails with 500. For another top-level value whose `expenses` is not an array, GET replies with that value (no body when the key is missing) and the other routes fail with 500. The model assumes the document shape.
- Array elements that are not objects. A `null` element always makes delete fail with 500, because `filter` visits every element (server.js:80). It makes update fail with 500 only when it comes before the first matching record or no record matches, because `findIndex` stops at the first match (server.js:93). GET lists it and POST keeps it. A number, string or boolean element has no `id`, so delete keeps it, update skips it and GET lists it. The model's records are all objects.
- Request bodies that are not objects. The body parser (server.js:12) refuses most of them before a handler runs. An array body is accepted and spreads into a record keyed `"0"`, `"1"`, and so on (server.js:64, 99). The model's bodies are all objects.
- Top-level keys of the file other than `expenses`: the original reads them with the document and writes them back unchanged (server.js:68, 81, 100). `Document` holds only `expenses`.
- `parseInt` string parsing and JavaScript number precision: the path id is taken as an already parsed `Option<int>`, and integers are unbounded.
- Clock reads (`Date.now()`, `new Date().toISOString()`): they are parameters.
- Server.Store.WriteDatabase: a failed write leaves the file as it was in the model. A file truncated or partly written by a failed `fs.writeFile` is not modelled.
- The 500 of the list route (server.js:53-54), reached only through documents that are not objects (see the lines above), and other 500 replies for exceptions that are not a failed write.
- The lost-update race between concurrent handlers: each handler is modelled as one atomic step.
- `console.log` / `console.error` logging.
- Field values other than integers and strings (fractional amounts, booleans, null, nested data) are opaque `Other` values. Nothing in the server interprets them.
