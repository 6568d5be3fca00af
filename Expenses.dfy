/** Expense records and the pure list logic the route handlers of server.js
    apply to the loaded document: building a new record, the shallow merge of
    an update, the `findIndex` lookup and the `filter` of a delete. */
module Expenses {

  datatype Option<+T> = None | Some(value: T)

  /** A JSON value as far as the server looks at it. Only integers and strings
      are ever compared; everything else (fractional numbers, booleans, null,
      arrays, objects) is an `Other`, carried along untouched as its JSON text.
      An `Other` never holds an integer or a string: those are always `Int`
      and `Str`, so an `Other` never equals an integer. */
  datatype Value = Int(n: int) | Str(s: string) | Other(json: string)

  /** An expense record: a JSON object from field names to values. */
  type Expense = map<string, Value>

  const IdField: string := "id"
  const DateField: string := "date"

  /** `exp.id === expenseId`, where the path id is `parseInt`'s result and
      None stands for NaN. NaN is strictly equal to nothing; a record without
      an `id` field (undefined) or with a non-integer `id` never matches. */
  predicate HasId(e: Expense, id: Option<int>)
    ensures id.None? ==> !HasId(e, id)
    ensures IdField !in e ==> !HasId(e, id)
    ensures IdField in e && !e[IdField].Int? ==> !HasId(e, id)
  {
    id.Some? && IdField in e && e[IdField] == Int(id.value)
  }

  /** The object literal `{ id: now, ...body, date: iso }`: later entries win,
      so a caller's `id` replaces the timestamp while a caller's `date` is
      always replaced by the server's. */
  function NewExpense(body: Expense, now: int, iso: string): (e: Expense)
    ensures e.Keys == body.Keys + {IdField, DateField}
    ensures e[DateField] == Str(iso)
    ensures e[IdField] == if IdField in body then body[IdField] else Int(now)
    ensures forall k :: k in body && k != DateField ==> e[k] == body[k]
  {
    map[IdField := Int(now)] + body + map[DateField := Str(iso)]
  }

  /** The spread `{ ...old, ...body }` of an update: every key of either
      record, the body's value wherever the body has the key. */
  function Merge(stored: Expense, body: Expense): (e: Expense)
    ensures e.Keys == stored.Keys + body.Keys
    ensures forall k :: k in body ==> e[k] == body[k]
    ensures forall k :: k in stored && k !in body ==> e[k] == stored[k]
  {
    stored + body
  }

  /** `findIndex(exp => exp.id === id)`: the first matching index, -1 when
      no record matches. */
  function FindIndex(es: seq<Expense>, id: Option<int>): (i: int)
    ensures -1 <= i < |es|
    ensures i == -1 <==> forall j :: 0 <= j < |es| ==> !HasId(es[j], id)
    ensures 0 <= i ==> HasId(es[i], id) && forall j :: 0 <= j < i ==> !HasId(es[j], id)
  {
    if es == [] then -1
    else if HasId(es[0], id) then 0
    else
      var k := FindIndex(es[1..], id);
      if k == -1 then -1 else k + 1
  }

  /** `filter(exp => exp.id !== id)`: the records that do not match, in
      their original order. */
  function WithoutId(es: seq<Expense>, id: Option<int>): (r: seq<Expense>)
    ensures |r| <= |es|
    ensures forall e :: e in r <==> e in es && !HasId(e, id)
    ensures (forall j :: 0 <= j < |es| ==> !HasId(es[j], id)) ==> r == es
  {
    if es == [] then []
    else if HasId(es[0], id) then WithoutId(es[1..], id)
    else [es[0]] + WithoutId(es[1..], id)
  }

  /** Filtering distributes over concatenation: the kept records of a prefix
      come before the kept records of the rest, so relative order survives. */
  lemma {:induction false} WithoutIdAppend(a: seq<Expense>, b: seq<Expense>, id: Option<int>)
    ensures WithoutId(a + b, id) == WithoutId(a, id) + WithoutId(b, id)
  {
    if a == [] {
      assert a + b == b;
    } else {
      assert (a + b)[1..] == a[1..] + b;
      WithoutIdAppend(a[1..], b, id);
    }
  }

  /** Deleting the same id twice leaves what deleting it once left. */
  lemma WithoutIdIdempotent(es: seq<Expense>, id: Option<int>)
    ensures WithoutId(WithoutId(es, id), id) == WithoutId(es, id)
  {
  }

  /** A path id that `parseInt` could not read (NaN) finds nothing and
      deletes nothing. */
  lemma UnparsedIdMatchesNothing(es: seq<Expense>)
    ensures FindIndex(es, None) == -1
    ensures WithoutId(es, None) == es
  {
  }

  /** The record a successful update writes: only the first match changes,
      it keeps every stored key, gains every body key, and body values win. */
  lemma UpdateChangesFirstMatchOnly(es: seq<Expense>, id: Option<int>, body: Expense)
    requires FindIndex(es, id) >= 0
    ensures var i := FindIndex(es, id);
      var r := es[i := Merge(es[i], body)];
      && |r| == |es|
      && (forall j :: 0 <= j < |es| && j != i ==> r[j] == es[j])
      && r[i].Keys == es[i].Keys + body.Keys
      && (forall k :: k in body ==> r[i][k] == body[k])
      && (forall k :: k in es[i] && k !in body ==> r[i][k] == es[i][k])
      && (forall j :: 0 <= j < i ==> !HasId(r[j], id))
  {
  }

  /** Repeating the same update is harmless as long as its body does not
      rewrite the `id` to another value: the second lookup finds the same
      record and the second merge changes nothing. */
  lemma RepeatedUpdateIsIdempotent(es: seq<Expense>, id: Option<int>, body: Expense)
    requires FindIndex(es, id) >= 0
    requires IdField in body ==> HasId(body, id)
    ensures var i := FindIndex(es, id);
      var once := es[i := Merge(es[i], body)];
      && FindIndex(once, id) == i
      && once[i := Merge(once[i], body)] == once
  {
    var i := FindIndex(es, id);
    var once := es[i := Merge(es[i], body)];
    assert HasId(once[i], id);
    assert Merge(once[i], body) == once[i];
  }

  /** An update whose body carries a different `id` leaves the record
      unreachable under the id it was found by: the merge does not protect
      the identifier. */
  lemma UpdateMayRewriteId(es: seq<Expense>, id: Option<int>, body: Expense)
    requires FindIndex(es, id) >= 0
    requires IdField in body && !HasId(body, id)
    ensures var i := FindIndex(es, id);
      !HasId(es[i := Merge(es[i], body)][i], id)
  {
  }
}
