/**
 Creating or reusing the child run of a delegation (app/delegation/runtime.py:82-257), and the routing boundary it is
 handed. Other callers may commit between the lookup and the insert.
 */
module Delegation {
  import opened Wrappers
  import opened Privacy
  import opened RoutingPolicy
  import opened RoutingResolver
  import Flow = PrivacyFlow

  datatype Status = Running | Waiting | Completed | Failed

  // `call` is NULL when the request names no tool call.
  datatype Row = Row(parent: nat, call: Option<string>, child: nat, status: Status)

  datatype Tables = Tables(runs: map<nat, Status>, rows: seq<Row>)

  datatype DelegationError = SpecialistsCannotDelegate | IntegrityError

  // Either the recorded result of an earlier delegation, or a child to execute.
  datatype Resolution = Finished(child: nat, status: Status) | Execute(child: nat, created: bool)

  predicate SameCall(a: Row, b: Row) {
    a.parent == b.parent && a.call.Some? && a.call == b.call
  }

  // The unique index on parent and call, and one delegation per child.
  ghost predicate Sound(t: Tables) {
    && (forall i, j | 0 <= i < j < |t.rows| :: !SameCall(t.rows[i], t.rows[j]) && t.rows[i].child != t.rows[j].child)
    && (forall i | 0 <= i < |t.rows| :: t.rows[i].child in t.runs)
  }

  function Lookup(rows: seq<Row>, parent: nat, call: Option<string>): (r: Option<Row>)
    ensures r.Some? ==> r.value in rows && r.value.parent == parent && r.value.call == call && call.Some?
    ensures r.None? && call.Some? ==> forall x | x in rows :: !(x.parent == parent && x.call == call)
  {
    if rows == [] || call.None? then None
    else if rows[0].parent == parent && rows[0].call == call then Some(rows[0])
    else Lookup(rows[1..], parent, call)
  }

  lemma SameCallIsSameRow(t: Tables, x: Row, y: Row)
    requires Sound(t) && x in t.rows && y in t.rows && SameCall(x, y)
    ensures x == y
  {
    var i :| 0 <= i < |t.rows| && t.rows[i] == x;
    var j :| 0 <= j < |t.rows| && t.rows[j] == y;
    assert SameCall(t.rows[i], t.rows[j]) && SameCall(t.rows[j], t.rows[i]);
  }

  // A child that already finished is not run again.
  function Effective(t: Tables, row: Row): Status {
    if row.child in t.runs && t.runs[row.child] in {Completed, Failed} then t.runs[row.child] else row.status
  }

  function Reuse(t: Tables, row: Row): Resolution {
    if Effective(t, row) in {Completed, Failed} then Finished(row.child, Effective(t, row)) else Execute(row.child, false)
  }

  predicate Collides(t: Tables, row: Row) {
    row.child in t.runs || Lookup(t.rows, row.parent, row.call).Some?
  }

  function WithChild(t: Tables, row: Row): Tables {
    Tables(t.runs[row.child := Running], t.rows + [row])
  }

  // What other callers may have done in between: new rows, and new states of the ones there.
  ghost predicate Later(t: Tables, t': Tables) {
    && t.runs.Keys <= t'.runs.Keys && |t.rows| <= |t'.rows|
    && (forall i | 0 <= i < |t.rows| :: t'.rows[i] == t.rows[i].(status := t'.rows[i].status))
  }

  lemma InsertKeepsSound(t: Tables, row: Row)
    requires Sound(t) && !Collides(t, row)
    ensures Sound(WithChild(t, row)) && Later(t, WithChild(t, row))
  {
    var t' := WithChild(t, row);
    forall i, j | 0 <= i < j < |t'.rows| ensures !SameCall(t'.rows[i], t'.rows[j]) && t'.rows[i].child != t'.rows[j].child {
      assert t'.rows[i] == t.rows[i] && t.rows[i] in t.rows;
    }
  }

  class Runtime {
    var tables: Tables

    constructor ()
      ensures tables == Tables(map[], [])
    {
      tables := Tables(map[], []);
    }

    /** The child of a call: the recorded one if any caller got there first, otherwise a new one. */
    method ResolveChild(parent: nat, call: Option<string>, candidate: nat, isSpecialist: bool, others: Tables)
      returns (r: Result<Resolution, DelegationError>)
      requires Sound(tables) && Sound(others) && Later(tables, others)
      modifies this
      ensures Sound(tables) && (tables in {old(tables), others} || tables == WithChild(others, Row(parent, call, candidate, Running)))
      ensures isSpecialist <==> r == Err(SpecialistsCannotDelegate)
      ensures r.Ok? ==> exists x :: x in tables.rows && x.parent == parent && x.call == call && x.child == r.value.child
      ensures r.Ok? && !(r.value.Execute? && r.value.created) ==> exists x ::
        && x in tables.rows && x.parent == parent && x.call == call && x.child == r.value.child
        && (r.value.Finished? <==> tables.runs[x.child] in {Completed, Failed} || x.status in {Completed, Failed})
        && (r.value.Finished? ==> r.value.status == if tables.runs[x.child] in {Completed, Failed} then tables.runs[x.child] else x.status)
      ensures r.Ok? && call.Some? ==> forall x | x in tables.rows && x.parent == parent && x.call == call :: x.child == r.value.child
      ensures r.Ok? && r.value.Execute? && r.value.created ==>
        && r.value.child == candidate && candidate !in others.runs
        && tables == Tables(others.runs[candidate := Running], others.rows + [Row(parent, call, candidate, Running)])
      ensures tables !in {old(tables), others} ==> r == Ok(Execute(candidate, true))
      ensures r == Err(IntegrityError) ==> candidate in others.runs && !(call.Some? && exists x :: x in others.rows && x.parent == parent && x.call == call)
      ensures r.Ok? && r.value.Finished? ==> r.value.status in {Completed, Failed}
      ensures r.Ok? && call.Some? && call.value != "" && Lookup(old(tables).rows, parent, call).Some? ==> tables == old(tables)
    {
      if isSpecialist {
        return Err(SpecialistsCannotDelegate);
      }
      if call.Some? && call.value != "" {
        var existing := Lookup(tables.rows, parent, call);
        if existing.Some? {
          OnlyChildOfCall(tables, existing.value);
          return Ok(Reuse(tables, existing.value));
        }
      }
      LookupStays(tables, others, parent, call);
      tables := others;
      var row := Row(parent, call, candidate, Running);
      if !Collides(tables, row) {
        InsertKeepsSound(tables, row);
        tables := WithChild(tables, row);
        assert tables.rows[|tables.rows| - 1] == row;
        OnlyChildOfCall(tables, row);
        return Ok(Execute(candidate, true));
      }
      var existing := Lookup(tables.rows, parent, call);
      if existing.None? {
        return Err(IntegrityError);
      }
      OnlyChildOfCall(tables, existing.value);
      return Ok(Reuse(tables, existing.value));
    }
  }

  lemma OnlyChildOfCall(t: Tables, row: Row)
    requires Sound(t) && row in t.rows
    ensures row.call.Some? ==> forall x | x in t.rows && x.parent == row.parent && x.call == row.call :: x.child == row.child
  {
    forall x | x in t.rows && x.parent == row.parent && x.call == row.call && row.call.Some? ensures x == row {
      SameCallIsSameRow(t, x, row);
    }
  }

  lemma LookupStays(t: Tables, t': Tables, parent: nat, call: Option<string>)
    requires Later(t, t')
    ensures Lookup(t.rows, parent, call).Some? ==> Lookup(t'.rows, parent, call).Some?
  {
    var found := Lookup(t.rows, parent, call);
    if found.Some? {
      var i :| 0 <= i < |t.rows| && t.rows[i] == found.value;
      assert t'.rows[i] in t'.rows;
    }
  }

  /** Whenever the same call is resolved again, before or after the child moved on, it is the same child. */
  lemma CallKeepsItsChild(t: Tables, t': Tables, parent: nat, call: Option<string>)
    requires Sound(t) && Sound(t') && Later(t, t') && Lookup(t.rows, parent, call).Some?
    ensures Lookup(t'.rows, parent, call).Some? && Lookup(t'.rows, parent, call).value.child == Lookup(t.rows, parent, call).value.child
  {
    LookupStays(t, t', parent, call);
    var x, y := Lookup(t.rows, parent, call).value, Lookup(t'.rows, parent, call).value;
    var i :| 0 <= i < |t.rows| && t.rows[i] == x;
    assert t'.rows[i] in t'.rows;
    SameCallIsSameRow(t', t'.rows[i], y);
  }

  /** Whichever way the child was found, it starts at least as strict as the routing context handed to the delegation. */
  lemma ResolvedChildIsAsStrict(r: Resolution, raced: bool, d: Flow.RoutingDict, confirmCloud: bool, fallback: Option<Fallback>,
                                profile: Profile, role: string, base: Context, modelOverride: string, effort: Option<Effort>, l: Level)
    requires r.Execute? && Covers(d.privacy, l)
    ensures var child := Inherited(WithProfile(profile, role, base, modelOverride, effort), Some(Flow.ParentOf(d, confirmCloud, fallback)));
      var level := Flow.TurnLevel(Flow.ChildMetadata(d, !r.created && !raced, child), None);
      level.Some? && Strictness(level.value) >= Strictness(l)
  {
    Flow.ChildStartsAsStrict(d, confirmCloud, fallback, !r.created && !raced, profile, role, base, modelOverride, effort, l);
  }
}
