/**
 Versioned profile facts and project memories (app/memory/service.py:386-430, 469-541): writing a key retires its active
 row and links the two. Rows are numbered in the order of their creation.
 */
module MemoryVersions {
  import opened Wrappers

  datatype Slot = Profile(key: string) | Project(project: string, key: string)

  datatype Memory = Memory(slot: Slot, content: string, active: bool, supersedes: Option<nat>, supersededBy: Option<nat>)

  predicate IsActive(rows: seq<Memory>, slot: Slot, i: nat) {
    i < |rows| && rows[i].active && rows[i].slot == slot
  }

  function ActiveRow(rows: seq<Memory>, slot: Slot, n: nat): (r: Option<nat>)
    requires n <= |rows|
    ensures r.Some? ==> r.value < n && IsActive(rows, slot, r.value)
    ensures r.None? ==> forall i | 0 <= i < n :: !IsActive(rows, slot, i)
  {
    if n == 0 then None else if IsActive(rows, slot, n - 1) then Some(n - 1) else ActiveRow(rows, slot, n - 1)
  }

  function Written(rows: seq<Memory>, slot: Slot, content: string): seq<Memory> {
    var existing, n := ActiveRow(rows, slot, |rows|), |rows|;
    (if existing.Some? then rows[existing.value := rows[existing.value].(active := false, supersededBy := Some(n))] else rows)
    + [Memory(slot, content, true, existing, None)]
  }

  function Archived(rows: seq<Memory>, i: nat): seq<Memory> {
    if i < |rows| then rows[i := rows[i].(active := false)] else rows
  }

  class MemoryService {
    var rows: seq<Memory>

    constructor ()
      ensures rows == []
    {
      rows := [];
    }

    method Store(slot: Slot, content: string) returns (id: nat)
      modifies this
      ensures rows == Written(old(rows), slot, content) && id == |old(rows)|
      ensures IsActive(rows, slot, id) && rows[id].content == content
    {
      id := |rows|;
      var existing := ActiveRow(rows, slot, |rows|);
      if existing.Some? {
        rows := rows[existing.value := rows[existing.value].(active := false, supersededBy := Some(id))];
      }
      rows := rows + [Memory(slot, content, true, existing, None)];
    }

    method Archive(i: nat)
      modifies this
      ensures rows == Archived(old(rows), i)
    {
      if i < |rows| {
        rows := rows[i := rows[i].(active := false)];
      }
    }
  }

  /// The version chain.

  // The contents reached by following the superseded rows, newest first.
  function Chain(rows: seq<Memory>, i: nat): seq<string>
    requires i < |rows|
    decreases i
  {
    [rows[i].content] + match rows[i].supersedes case Some(j) => (if j < i then Chain(rows, j) else []) case None => []
  }

  datatype Action = Write(slot: Slot, content: string) | Retire(i: nat)

  function After(actions: seq<Action>): seq<Memory> {
    if actions == [] then []
    else
      var rows := After(actions[..|actions| - 1]);
      match actions[|actions| - 1]
      case Write(slot, content) => Written(rows, slot, content)
      case Retire(i) => Archived(rows, i)
  }

  // What was written to a slot since it was last archived, newest first.
  function Log(actions: seq<Action>, slot: Slot): seq<string> {
    if actions == [] then []
    else
      var before := actions[..|actions| - 1];
      match actions[|actions| - 1]
      case Write(s, content) => if s == slot then [content] + Log(before, slot) else Log(before, slot)
      case Retire(i) => if IsActive(After(before), slot, i) then [] else Log(before, slot)
  }

  ghost predicate Linked(rows: seq<Memory>) {
    && (forall i | 0 <= i < |rows| && rows[i].supersedes.Some? :: LinkedBack(rows, i))
    && (forall i | 0 <= i < |rows| && rows[i].supersededBy.Some? :: LinkedForth(rows, i))
    && (forall i, j | 0 <= i < j < |rows| && rows[i].active && rows[j].active :: rows[i].slot != rows[j].slot)
  }

  ghost predicate LinkedBack(rows: seq<Memory>, i: nat)
    requires i < |rows| && rows[i].supersedes.Some?
  {
    var j := rows[i].supersedes.value;
    j < i && rows[j].slot == rows[i].slot && rows[j].supersededBy == Some(i)
  }

  ghost predicate LinkedForth(rows: seq<Memory>, i: nat)
    requires i < |rows| && rows[i].supersededBy.Some?
  {
    var j := rows[i].supersededBy.value;
    j < |rows| && rows[j].supersedes == Some(i) && !rows[i].active
  }

  // Later writes leave slots, contents and back links alone, so chains stay.
  ghost predicate SameVersions(rows: seq<Memory>, rows': seq<Memory>) {
    && |rows| <= |rows'|
    && forall i | 0 <= i < |rows| :: rows'[i].content == rows[i].content && rows'[i].supersedes == rows[i].supersedes
  }

  lemma {:induction false} ChainStays(rows: seq<Memory>, rows': seq<Memory>, i: nat)
    requires SameVersions(rows, rows') && i < |rows|
    ensures Chain(rows', i) == Chain(rows, i)
    decreases i
  {
    if rows[i].supersedes.Some? && rows[i].supersedes.value < i {
      ChainStays(rows, rows', rows[i].supersedes.value);
    }
  }

  lemma OnlyActive(rows: seq<Memory>, slot: Slot, i: nat)
    requires Linked(rows) && IsActive(rows, slot, i)
    ensures ActiveRow(rows, slot, |rows|) == Some(i)
  {
    var j := ActiveRow(rows, slot, |rows|).value;
    assert rows[i].active && rows[j].active;
  }

  lemma WriteKeepsLinked(rows: seq<Memory>, slot: Slot, content: string)
    requires Linked(rows)
    ensures Linked(Written(rows, slot, content)) && SameVersions(rows, Written(rows, slot, content))
  {
    var rows', existing := Written(rows, slot, content), ActiveRow(rows, slot, |rows|);
    forall i | 0 <= i < |rows'| && rows'[i].supersedes.Some? ensures LinkedBack(rows', i) {
      if i < |rows| {
        assert LinkedBack(rows, i);
        var j := rows[i].supersedes.value;
        assert LinkedForth(rows, j);
      }
    }
    forall i | 0 <= i < |rows'| && rows'[i].supersededBy.Some? ensures LinkedForth(rows', i) {
      if i < |rows| && rows[i].supersededBy.Some? {
        assert LinkedForth(rows, i);
      }
    }
    forall i, j | 0 <= i < j < |rows'| && rows'[i].active && rows'[j].active ensures rows'[i].slot != rows'[j].slot {
      if j == |rows| && rows'[i].slot == slot {
        OnlyActive(rows, slot, i);
      }
    }
  }

  lemma ArchiveKeepsLinked(rows: seq<Memory>, i: nat)
    requires Linked(rows)
    ensures Linked(Archived(rows, i)) && SameVersions(rows, Archived(rows, i))
  {
    var rows' := Archived(rows, i);
    forall k | 0 <= k < |rows'| && rows'[k].supersedes.Some? ensures LinkedBack(rows', k) {
      assert LinkedBack(rows, k);
    }
    forall k | 0 <= k < |rows'| && rows'[k].supersededBy.Some? ensures LinkedForth(rows', k) {
      assert LinkedForth(rows, k);
    }
  }

  lemma {:induction false} RowsStayLinked(actions: seq<Action>)
    ensures Linked(After(actions))
  {
    if actions != [] {
      var rows := After(actions[..|actions| - 1]);
      RowsStayLinked(actions[..|actions| - 1]);
      match actions[|actions| - 1]
      case Write(slot, content) => WriteKeepsLinked(rows, slot, content);
      case Retire(i) => ArchiveKeepsLinked(rows, i);
    }
  }

  /** In every history a row supersedes an earlier one of its own slot, which points back to it and is retired, and a slot has one active row. */
  lemma VersionsAreLinked(actions: seq<Action>, i: nat, j: nat)
    requires i < |After(actions)| && j < |After(actions)|
    ensures var rows := After(actions);
      && (rows[i].supersedes == Some(j) ==> j < i && rows[j].slot == rows[i].slot && rows[j].supersededBy == Some(i) && !rows[j].active)
      && (rows[j].supersededBy == Some(i) ==> rows[i].supersedes == Some(j))
      && (rows[i].active && rows[j].active && rows[i].slot == rows[j].slot ==> i == j)
  {
    var rows := After(actions);
    RowsStayLinked(actions);
    if rows[i].supersedes == Some(j) {
      assert LinkedBack(rows, i);
      assert LinkedForth(rows, j);
    }
    if rows[j].supersededBy == Some(i) {
      assert LinkedForth(rows, j);
    }
  }

  ghost predicate MatchesLog(rows: seq<Memory>, slot: Slot, log: seq<string>) {
    match ActiveRow(rows, slot, |rows|)
    case None => log == []
    case Some(a) => Chain(rows, a) == log
  }

  lemma WriteExtendsLog(rows: seq<Memory>, slot: Slot, content: string, other: Slot, log: seq<string>)
    requires Linked(rows) && MatchesLog(rows, other, log)
    ensures MatchesLog(Written(rows, slot, content), other, if slot == other then [content] + log else log)
  {
    var rows', a := Written(rows, slot, content), ActiveRow(rows, other, |rows|);
    WriteKeepsLinked(rows, slot, content);
    if a.Some? {
      ChainStays(rows, rows', a.value);
    }
    if slot == other {
      OnlyActive(rows', other, |rows|);
    } else if a.Some? {
      OnlyActive(rows', other, a.value);
    } else {
      assert forall i | 0 <= i < |rows'| :: IsActive(rows', other, i) ==> IsActive(rows, other, i);
    }
  }

  lemma ArchiveTrimsLog(rows: seq<Memory>, i: nat, slot: Slot, log: seq<string>)
    requires Linked(rows) && MatchesLog(rows, slot, log)
    ensures MatchesLog(Archived(rows, i), slot, if IsActive(rows, slot, i) then [] else log)
  {
    if IsActive(rows, slot, i) {
      ArchivedIsInactive(rows, i, slot);
    } else {
      ArchivingElsewhereKeepsChain(rows, i, slot);
    }
  }

  lemma ArchivedIsInactive(rows: seq<Memory>, i: nat, slot: Slot)
    requires Linked(rows) && IsActive(rows, slot, i)
    ensures ActiveRow(Archived(rows, i), slot, |rows|).None?
  {
    var rows' := Archived(rows, i);
    forall k | 0 <= k < |rows'| ensures !IsActive(rows', slot, k) {
      assert k < i ==> rows'[k] == rows[k];
      assert i < k ==> rows'[k] == rows[k];
    }
  }

  lemma ArchivingElsewhereKeepsChain(rows: seq<Memory>, i: nat, slot: Slot)
    requires Linked(rows) && !IsActive(rows, slot, i)
    ensures ActiveRow(Archived(rows, i), slot, |rows|) == ActiveRow(rows, slot, |rows|)
    ensures var a := ActiveRow(rows, slot, |rows|); a.Some? ==> Chain(Archived(rows, i), a.value) == Chain(rows, a.value)
  {
    var rows', a := Archived(rows, i), ActiveRow(rows, slot, |rows|);
    ArchiveKeepsLinked(rows, i);
    if a.Some? {
      OnlyActive(rows', slot, a.value);
      ChainStays(rows, rows', a.value);
    } else {
      assert forall k | 0 <= k < |rows'| :: IsActive(rows', slot, k) ==> IsActive(rows, slot, k);
    }
  }

  /** After any history a slot has at most one active row, and its chain is exactly what was written, newest first. */
  lemma {:induction false} ChainIsTheLog(actions: seq<Action>, slot: Slot)
    ensures Linked(After(actions)) && MatchesLog(After(actions), slot, Log(actions, slot))
  {
    RowsStayLinked(actions);
    if actions != [] {
      var before := actions[..|actions| - 1];
      RowsStayLinked(before);
      ChainIsTheLog(before, slot);
      match actions[|actions| - 1]
      case Write(s, content) => WriteExtendsLog(After(before), s, content, slot, Log(before, slot));
      case Retire(i) => ArchiveTrimsLog(After(before), i, slot, Log(before, slot));
    }
  }
}
