/**
 The transactional part of `EventBus.publish` (app/events/bus.py:37-102): an event is inserted once per idempotency key,
 whatever other sessions commit between the lookup and the insert. The in-memory dispatch is not part of this model.
 */
module EventBus {
  import opened Wrappers
  import opened EventStatus

  // `trigger` says whether the type is one that starts an automation: timer, cron or webhook.
  datatype Row = Row(id: nat, key: Option<string>, correlation: string, trigger: bool, occurredAt: nat, status: Status)

  datatype PublishError = IntegrityError

  // `Option` is NULL, which the partial unique index ignores; the empty string is indexed, although the code skips its lookup.
  predicate SameKey(a: Row, b: Row) {
    a.key.Some? && a.key == b.key
  }

  ghost predicate Sound(rows: seq<Row>) {
    forall i, j | 0 <= i < j < |rows| :: rows[i].id != rows[j].id && !SameKey(rows[i], rows[j])
  }

  predicate Looked(e: Row) {
    e.key.Some? && e.key.value != ""
  }

  function Lookup(rows: seq<Row>, key: string): (r: Option<Row>)
    ensures r.Some? ==> r.value in rows && r.value.key == Some(key)
    ensures r.None? ==> forall x | x in rows :: x.key != Some(key)
  {
    if rows == [] then None
    else if rows[0].key == Some(key) then Some(rows[0])
    else Lookup(rows[1..], key)
  }

  predicate Violates(rows: seq<Row>, e: Row) {
    exists x | x in rows :: x.id == e.id || SameKey(x, e)
  }

  /// What publishing amounts to: one atomic insert-if-absent.

  predicate Exists(rows: seq<Row>, e: Row) {
    Looked(e) && Lookup(rows, e.key.value).Some?
  }

  function Inserted(rows: seq<Row>, e: Row): seq<Row> {
    if Exists(rows, e) || Violates(rows, e) then rows else rows + [e]
  }

  class Bus {
    var rows: seq<Row>

    constructor ()
      ensures rows == [] && Sound(rows)
    {
      rows := [];
    }

    // `others` is what other sessions commit after the first lookup and before this session's own commit.
    method Publish(event: Row, others: seq<Row>) returns (r: Result<Row, PublishError>)
      requires event.status == Pending && Sound(rows + others)
      modifies this
      ensures Sound(rows)
      ensures rows == Inserted(if Exists(old(rows), event) then old(rows) else old(rows) + others, event)
      ensures r.Err? <==>
        && (exists x :: x in old(rows) + others && (x.id == event.id || (event.key.Some? && x.key == event.key)))
        && !(event.key.Some? && event.key.value != "" && exists x :: x in old(rows) + others && x.key == event.key)
      ensures r.Ok? ==> r.value in rows
      ensures r.Ok? && Looked(event) ==> r.value.key == event.key && forall x | x in rows && x.key == event.key :: x == r.value
      ensures r.Ok? && !Looked(event) ==> r.value == event
    {
      SoundPrefix(rows, others);
      if Looked(event) {
        var existing := Lookup(rows, event.key.value);
        if existing.Some? {
          KeyIsUnique(rows, existing.value);
          assert existing.value in rows + others;
          return Ok(existing.value);
        }
      }
      rows := rows + others;
      if !Violates(rows, event) {
        InsertKeepsSound(rows, event);
        rows := rows + [event];
        assert rows[|rows| - 1] == event;
        if event.key.Some? {
          KeyIsUnique(rows, event);
        }
        return Ok(event);
      }
      if Looked(event) {
        var existing := Lookup(rows, event.key.value);
        if existing.Some? {
          KeyIsUnique(rows, existing.value);
          return Ok(existing.value);
        }
      }
      return Err(IntegrityError);
    }
  }

  lemma SoundPrefix(rows: seq<Row>, others: seq<Row>)
    requires Sound(rows + others)
    ensures Sound(rows)
  {
    forall i, j | 0 <= i < j < |rows| ensures rows[i].id != rows[j].id && !SameKey(rows[i], rows[j]) {
      assert rows[i] == (rows + others)[i] && rows[j] == (rows + others)[j];
    }
  }

  lemma KeyIsUnique(rows: seq<Row>, x: Row)
    requires Sound(rows) && x in rows && x.key.Some?
    ensures forall y | y in rows && y.key == x.key :: y == x
  {
    forall y | y in rows && y.key == x.key ensures y == x {
      var i :| 0 <= i < |rows| && rows[i] == x;
      var j :| 0 <= j < |rows| && rows[j] == y;
      assert SameKey(rows[i], rows[j]) && SameKey(rows[j], rows[i]);
    }
  }

  lemma InsertKeepsSound(rows: seq<Row>, e: Row)
    requires Sound(rows) && !Violates(rows, e)
    ensures Sound(rows + [e])
  {
  }

  // An event is stored if and only if neither its id nor its key is there yet; an event without a key is only held to its id.
  lemma StoredIff(rows: seq<Row>, e: Row)
    ensures Inserted(rows, e) == rows + [e] <==> forall x | x in rows :: x.id != e.id && (e.key.Some? ==> x.key != e.key)
    ensures Inserted(rows, e) == rows + [e] || Inserted(rows, e) == rows
    ensures Sound(rows) <==> forall i, j | 0 <= i < j < |rows| :: rows[i].id != rows[j].id && (rows[i].key.Some? ==> rows[i].key != rows[j].key)
  {
    assert |rows + [e]| == |rows| + 1;
  }

  /** Publishing never touches a stored row and keeps ids and keys unique. */
  lemma PublishOnlyAppends(rows: seq<Row>, e: Row)
    requires Sound(rows)
    ensures Sound(Inserted(rows, e)) && rows <= Inserted(rows, e) && |Inserted(rows, e)| <= |rows| + 1
  {
    if !Violates(rows, e) {
      InsertKeepsSound(rows, e);
    }
  }

  /** A key that was published stays published, and publishing it again, with any id and from anywhere, changes nothing. */
  lemma PublishIsOncePerKey(rows: seq<Row>, e: Row, later: seq<Row>, again: Row)
    requires Looked(e) && again.key == e.key && e in Inserted(rows, e)
    ensures Exists(Inserted(rows, e) + later, again) && Inserted(Inserted(rows, e) + later, again) == Inserted(rows, e) + later
  {
    assert e in Inserted(rows, e) + later;
  }
}
