/** The JSON file store and the four route handlers of server.js. Every
    handler loads the whole document, changes the loaded copy in place and,
    for the mutating routes, writes the whole document back. */
module Server {
  import opened Expenses

  /** The persisted document `{ expenses: [...] }`, newest record first. */
  datatype Document = Document(expenses: seq<Expense>)

  /** What a handler sends back. Status codes are given by Status. */
  datatype Reply =
    | Listed(expenses: seq<Expense>)
    | Created(expense: Expense)
    | Deleted
    | Updated(expense: Expense)
    | NotFound
    | Failed(message: string)

  /** The HTTP status of a reply: 201 only for a created record, 404 only
      for an update that found nothing, 500 only for a failure. */
  function Status(r: Reply): (code: int)
    ensures code == 201 <==> r.Created?
    ensures code == 404 <==> r.NotFound?
    ensures code == 500 <==> r.Failed?
    ensures code == 200 <==> (r.Listed? || r.Deleted? || r.Updated?)
  {
    match r
    case Listed(_) => 200
    case Created(_) => 201
    case Deleted => 200
    case Updated(_) => 200
    case NotFound => 404
    case Failed(_) => 500
  }

  const AddFailed: string := "Failed to add expense"
  const DeleteFailed: string := "Failed to delete expense"
  const UpdateFailed: string := "Failed to update expense"

  /** readDatabase: the parsed file when it could be read and parsed, and the
      empty document `{ expenses: [] }` on any failure. `file` is None when
      the file is missing, unreadable or not valid JSON. */
  function ReadDatabase(file: Option<Document>): (d: Document)
    ensures file.None? ==> d.expenses == []
    ensures file.Some? ==> d == file.value
  {
    match file
    case None => Document([])
    case Some(doc) => doc
  }

  /** The `db` object a handler loads and changes in place. */
  class Database {
    var expenses: seq<Expense>

    constructor (doc: Document)
      ensures expenses == doc.expenses
    {
      expenses := doc.expenses;
    }

    function Snapshot(): (d: Document)
      reads this
    {
      Document(expenses)
    }

    /** `db.expenses.unshift(e)`. */
    method Unshift(e: Expense)
      modifies this
      ensures expenses == [e] + old(expenses)
    {
      expenses := [e] + expenses;
    }
  }

  /** What one call of readDatabase sees: the file's document when this read
      succeeds, and None when the read itself fails (an I/O error on any
      file) or the file is missing or not valid JSON. */
  function ReadAttempt(file: Option<Document>, readOk: bool): (seen: Option<Document>)
    ensures !readOk ==> seen.None?
    ensures readOk ==> seen == file
  {
    if readOk then file else None
  }

  /** The JSON file that holds the document. Every handler call reads it
      afresh; `readOk` and `writeOk` are the outcomes of that call's file
      system read and write. */
  class Store {
    var file: Option<Document>

    constructor (file: Option<Document>)
      ensures this.file == file
    {
      this.file := file;
    }

    /** writeDatabase: overwrite the file with the whole document. `ok` is the
        outcome of the file system write; a failure is reported to the caller
        and leaves the file as it was. */
    method WriteDatabase(db: Database, ok: bool) returns (written: bool)
      modifies this
      ensures written == ok
      ensures file == if ok then Some(db.Snapshot()) else old(file)
    {
      if ok {
        file := Some(db.Snapshot());
      }
      written := ok;
    }

    /** GET /api/expenses: the stored records verbatim and in stored order;
        a failed read, or a missing or corrupt file, lists as empty. */
    method List(readOk: bool) returns (reply: Reply)
      ensures reply.Listed? && Status(reply) == 200
      ensures readOk && file.Some? ==> reply.expenses == file.value.expenses
      ensures !readOk || file.None? ==> reply.expenses == []
    {
      var db := new Database(ReadDatabase(ReadAttempt(file, readOk)));
      reply := Listed(db.expenses);
    }

    /** POST /api/expenses: the new record, stamped with `now` (Date.now())
        and `iso` (the ISO time string), goes in front of the loaded list. */
    method Create(body: Expense, now: int, iso: string, readOk: bool, writeOk: bool)
      returns (reply: Reply)
      modifies this
      ensures var e := NewExpense(body, now, iso);
        if writeOk then
          && reply == Created(e)
          && file == Some(Document([e] + ReadDatabase(ReadAttempt(old(file), readOk)).expenses))
        else
          reply == Failed(AddFailed) && file == old(file)
      ensures Status(reply) == if writeOk then 201 else 500
    {
      var db := new Database(ReadDatabase(ReadAttempt(file, readOk)));
      var newExpense := NewExpense(body, now, iso);
      db.Unshift(newExpense);
      var written := WriteDatabase(db, writeOk);
      if !written {
        return Failed(AddFailed);
      }
      reply := Created(newExpense);
    }

    /** DELETE /api/expenses/:id: keep only the records whose `id` is not
        strictly equal to the parsed id and write the result back, whether or
        not anything matched. `id` is None when parseInt gave NaN. */
    method Delete(id: Option<int>, readOk: bool, writeOk: bool) returns (reply: Reply)
      modifies this
      ensures var kept := WithoutId(ReadDatabase(ReadAttempt(old(file), readOk)).expenses, id);
        if writeOk then reply == Deleted && file == Some(Document(kept))
        else reply == Failed(DeleteFailed) && file == old(file)
      ensures Status(reply) == if writeOk then 200 else 500
    {
      var db := new Database(ReadDatabase(ReadAttempt(file, readOk)));
      db.expenses := WithoutId(db.expenses, id);
      var written := WriteDatabase(db, writeOk);
      if !written {
        return Failed(DeleteFailed);
      }
      reply := Deleted;
    }

    /** PUT /api/expenses/:id: merge the body into the first record whose
        `id` matches and write back; without a match, reply not-found and
        write nothing. */
    method Update(id: Option<int>, body: Expense, readOk: bool, writeOk: bool)
      returns (reply: Reply)
      modifies this
      ensures var es := ReadDatabase(ReadAttempt(old(file), readOk)).expenses;
        var i := FindIndex(es, id);
        if i == -1 then
          reply == NotFound && file == old(file)
        else if writeOk then
          && reply == Updated(Merge(es[i], body))
          && file == Some(Document(es[i := Merge(es[i], body)]))
        else
          reply == Failed(UpdateFailed) && file == old(file)
      ensures Status(reply) ==
        if FindIndex(ReadDatabase(ReadAttempt(old(file), readOk)).expenses, id) == -1 then 404
        else if writeOk then 200 else 500
    {
      var db := new Database(ReadDatabase(ReadAttempt(file, readOk)));
      var index := FindIndex(db.expenses, id);
      if index == -1 {
        return NotFound;
      }
      db.expenses := db.expenses[index := Merge(db.expenses[index], body)];
      var written := WriteDatabase(db, writeOk);
      if !written {
        return Failed(UpdateFailed);
      }
      reply := Updated(db.expenses[index]);
    }
  }

  /** Creating E1 and then E2 lists E2 before E1, both before what was
      stored (every read and write of the three calls succeeding). */
  method CreateTwiceListsNewestFirst(store: Store, b1: Expense, b2: Expense,
                                     t1: int, t2: int, iso1: string, iso2: string)
    returns (listed: seq<Expense>)
    modifies store
    ensures listed == [NewExpense(b2, t2, iso2), NewExpense(b1, t1, iso1)]
                      + ReadDatabase(old(store.file)).expenses
  {
    var r1 := store.Create(b1, t1, iso1, true, true);
    var r2 := store.Create(b2, t2, iso2, true, true);
    var reply := store.List(true);
    listed := reply.expenses;
  }

  /** Deleting the same id twice succeeds both times, and the second delete
      leaves the file as the first one left it (every read and write
      succeeding). */
  method DeleteTwiceIsIdempotent(store: Store, id: Option<int>)
    returns (first: Reply, second: Reply)
    modifies store
    ensures first == Deleted && second == Deleted
    ensures store.file == Some(Document(WithoutId(ReadDatabase(old(store.file)).expenses, id)))
  {
    first := store.Delete(id, true, true);
    second := store.Delete(id, true, true);
    WithoutIdIdempotent(ReadDatabase(old(store.file)).expenses, id);
  }

  /** An update that finds nothing (an unknown id, or NaN) leaves the listing
      exactly as it was (every read succeeding). */
  method UpdateUnknownKeepsListing(store: Store, id: Option<int>, body: Expense, writeOk: bool)
    returns (reply: Reply, before: seq<Expense>, after: seq<Expense>)
    modifies store
    requires FindIndex(ReadDatabase(store.file).expenses, id) == -1
    ensures reply == NotFound && before == after
  {
    var listed := store.List(true);
    before := listed.expenses;
    reply := store.Update(id, body, true, writeOk);
    listed := store.List(true);
    after := listed.expenses;
  }

  /** A create whose read fails on a file that holds records, followed by a
      successful write, replaces every stored record with the new one: the
      read fallback is indistinguishable from an empty store. */
  method FailedReadThenCreateDropsRecords(store: Store, body: Expense, now: int, iso: string)
    returns (reply: Reply, listed: seq<Expense>)
    modifies store
    ensures reply == Created(NewExpense(body, now, iso))
    ensures listed == [NewExpense(body, now, iso)]
  {
    reply := store.Create(body, now, iso, false, true);
    var r := store.List(true);
    listed := r.expenses;
  }
}
