/**
 Restoring a local backup (scripts/backup_local.py:205-311): two SQLite stores with their sidecar files and the workspace
 directory are replaced, and put back when any step fails. A failing file operation has no effect, except that a failing
 copy leaves its own staging name behind; the operations of the undo itself succeed.
 */
module LocalRestore {
  import opened Wrappers

  type Content = string

  datatype Part = Main | Wal | Shm | Journal

  const SIDECARS: seq<Part> := [Wal, Shm, Journal]

  // A store file or one of its sidecars.
  datatype Slot = Slot(store: string, part: Part)

  // Besides the files in use there are only names that carry the id of this restore.
  datatype Path = Live(slot: Slot) | Previous(slot: Slot) | Staged(store: string)

  type Files = map<Path, Content>

  function Get(files: Files, p: Path): Option<Content> {
    if p in files then Some(files[p]) else None
  }

  function Moved(files: Files, from: Path, to: Path): Files
    requires from in files
  {
    (files - {from})[to := files[from]]
  }

  type Directory = map<string, Content>

  // Some operations were tried: they all worked if and only if the fuse is still intact.
  predicate Works(before: nat, after: nat, ok: bool) {
    (ok <==> before == 0 || after > 0) && (before == 0 ==> after == 0)
  }

  class Disk {
    var files: Files
    var root: Directory       // the workspace, without the two directories named after this restore
    var stage: Directory
    var previous: Directory
    var fuse: nat             // 0: no operation fails; n: the n-th one does

    constructor (files: Files, root: Directory, fuse: nat)
      ensures this.files == files && this.root == root && this.fuse == fuse
    {
      this.files, this.root, this.stage, this.previous, this.fuse := files, root, map[], map[], fuse;
    }

    // Whether the next operation works.
    method Attempt() returns (ok: bool)
      modifies this`fuse
      ensures Works(old(fuse), fuse, ok)
    {
      ok := fuse != 1;
      fuse := if fuse == 0 then 0 else fuse - 1;
    }

    method Copy(content: Content, to: Path) returns (ok: bool)
      modifies this`fuse, this`files
      ensures forall p | p != to :: Get(files, p) == Get(old(files), p)
      ensures ok ==> Get(files, to) == Some(content)
      ensures Works(old(fuse), fuse, ok)
    {
      ok := Attempt();
      if ok {
        files := files[to := content];
      }
    }

    method Rename(from: Path, to: Path) returns (ok: bool)
      requires from in files
      modifies this`fuse, this`files
      ensures files == if ok then Moved(old(files), from, to) else old(files)
      ensures Works(old(fuse), fuse, ok)
    {
      ok := Attempt();
      if ok {
        files := Moved(files, from, to);
      }
    }

    method MoveOut(name: string) returns (ok: bool)
      requires name in root
      modifies this`fuse, this`root, this`previous
      ensures root == if ok then old(root) - {name} else old(root)
      ensures previous == if ok then old(previous)[name := old(root)[name]] else old(previous)
      ensures Works(old(fuse), fuse, ok)
    {
      ok := Attempt();
      if ok {
        previous, root := previous[name := root[name]], root - {name};
      }
    }

    method MoveIn(name: string) returns (ok: bool)
      requires name in stage
      modifies this`fuse, this`root, this`stage
      ensures stage == if ok then old(stage) - {name} else old(stage)
      ensures root == if ok then old(root)[name := old(stage)[name]] else old(root)
      ensures Works(old(fuse), fuse, ok)
    {
      ok := Attempt();
      if ok {
        root, stage := root[name := stage[name]], stage - {name};
      }
    }
  }

  /// The workspace.

  function Named(names: seq<string>): set<string> {
    set n | n in names
  }

  ghost predicate Lists(names: seq<string>, d: Directory) {
    (forall i, j | 0 <= i < j < |names| :: names[i] != names[j]) && Named(names) == d.Keys
  }

  function Kept(d: Directory, names: seq<string>): Directory {
    map n | n in d && n in names :: d[n]
  }

  function Without(d: Directory, names: seq<string>): Directory {
    map n | n in d && n !in names :: d[n]
  }

  // The workspace with the first `i` old entries set aside and the first `k` new ones moved in.
  ghost predicate PartWay(disk: Disk, before: Directory, staged: Directory, oldNames: seq<string>, newNames: seq<string>, i: nat, k: nat)
    requires i <= |oldNames| && k <= |newNames|
    reads disk
  {
    && disk.previous == Kept(before, oldNames[..i])
    && disk.stage == Without(staged, newNames[..k])
    && (if i == |oldNames| then disk.root == Kept(staged, newNames[..k]) else k == 0 && disk.root == Without(before, oldNames[..i]))
  }

  lemma NextName(names: seq<string>, d: Directory, i: nat)
    requires Lists(names, d) && i < |names|
    ensures names[i] in d && names[i] !in names[..i] && names[..i + 1] == names[..i] + [names[i]]
    ensures Without(d, names[..i]) - {names[i]} == Without(d, names[..i + 1])
    ensures Kept(d, names[..i])[names[i] := d[names[i]]] == Kept(d, names[..i + 1])
  {
    assert names[i] in Named(names);
    assert names[..i + 1] == names[..i] + [names[i]];
  }

  lemma PreviousName(names: seq<string>, d: Directory, i: nat)
    requires Lists(names, d) && i < |names|
    ensures names[i] in d && names[i] !in names[..i] && names[..i + 1] == names[..i] + [names[i]]
    ensures Kept(d, names[..i + 1]) - {names[i]} == Kept(d, names[..i])
    ensures Without(d, names[..i + 1])[names[i] := d[names[i]]] == Without(d, names[..i])
  {
    assert names[i] in Named(names);
    assert names[..i + 1] == names[..i] + [names[i]];
  }

  lemma AllNames(names: seq<string>, d: Directory)
    requires Lists(names, d)
    ensures Kept(d, names[..|names|]) == d && Without(d, names[..|names|]) == map[]
    ensures Kept(d, names[..0]) == map[] && Without(d, names[..0]) == d
  {
    assert names[..|names|] == names;
    assert forall n | n in d :: n in Named(names);
  }

  /// The stores.

  // Compared with `before`, the files of the slots in `done` are set aside and all other live files are as they were.
  ghost predicate SetAside(before: Files, files: Files, done: set<Slot>) {
    forall s: Slot :: SlotOk(before, files, done, s)
  }

  ghost predicate SlotOk(before: Files, files: Files, done: set<Slot>, s: Slot) {
    if s in done then Get(files, Previous(s)) == Get(before, Live(s))
    else Get(files, Live(s)) == Get(before, Live(s)) && Previous(s) !in files
  }

  // No file of an earlier restore carries this restore's id.
  ghost predicate OnlyLive(files: Files) {
    forall p | p in files :: p.Live?
  }

  ghost predicate SameLive(before: Files, files: Files) {
    forall s: Slot :: Get(files, Live(s)) == Get(before, Live(s))
  }

  ghost predicate Fresh(slots: seq<Slot>) {
    forall i, j | 0 <= i < j < |slots| :: slots[i] != slots[j]
  }

  function Slots(q: seq<Slot>): set<Slot> {
    set s | s in q
  }

  ghost predicate Untouched(done: set<Slot>, store: string) {
    forall s | s in done :: s.store != store
  }

  // Nothing in use changed, except perhaps at `s`.
  ghost predicate OthersStay(files: Files, files': Files, s: Slot) {
    forall x: Slot | x != s :: Get(files', Live(x)) == Get(files, Live(x)) && Get(files', Previous(x)) == Get(files, Previous(x))
  }

  // The store holds its snapshot and no sidecar of the replaced database.
  ghost predicate Restored(files: Files, store: string, snapshot: Content) {
    && Get(files, Live(Slot(store, Main))) == Some(snapshot)
    && (forall part | part in SIDECARS :: Live(Slot(store, part)) !in files)
  }

  datatype Target = Target(store: string, snapshot: Content)

  class Restore {
    const disk: Disk

    constructor (disk: Disk)
      ensures this.disk == disk
    {
      this.disk := disk;
    }

    method UndoNew(ghost staged: Directory, newNames: seq<string>, k: nat)
      requires Lists(newNames, staged) && k <= |newNames|
      requires disk.root == Kept(staged, newNames[..k]) && disk.stage == Without(staged, newNames[..k])
      modifies disk`root, disk`stage
      ensures disk.root == map[] && disk.stage == staged
    {
      var i := k;
      while i > 0
        invariant 0 <= i <= k && disk.root == Kept(staged, newNames[..i]) && disk.stage == Without(staged, newNames[..i])
      {
        i := i - 1;
        PreviousName(newNames, staged, i);
        disk.stage, disk.root := disk.stage[newNames[i] := disk.root[newNames[i]]], disk.root - {newNames[i]};
      }
      AllNames(newNames, staged);
    }

    method UndoOld(ghost before: Directory, oldNames: seq<string>, k: nat)
      requires Lists(oldNames, before) && k <= |oldNames|
      requires disk.root == Without(before, oldNames[..k]) && disk.previous == Kept(before, oldNames[..k])
      modifies disk`root, disk`previous
      ensures disk.root == before && disk.previous == map[]
    {
      var i := k;
      while i > 0
        invariant 0 <= i <= k && disk.root == Without(before, oldNames[..i]) && disk.previous == Kept(before, oldNames[..i])
      {
        i := i - 1;
        PreviousName(oldNames, before, i);
        disk.root, disk.previous := disk.root[oldNames[i] := disk.previous[oldNames[i]]], disk.previous - {oldNames[i]};
      }
      AllNames(oldNames, before);
    }

    /** Puts the new entries back first, then the old ones, each in reverse. */
    method UndoWorkspace(ghost before: Directory, ghost staged: Directory, oldNames: seq<string>, newNames: seq<string>, i: nat, k: nat)
      requires Lists(oldNames, before) && Lists(newNames, staged)
      requires i <= |oldNames| && k <= |newNames| && PartWay(disk, before, staged, oldNames, newNames, i, k)
      modifies disk`root, disk`stage, disk`previous
      ensures disk.root == before && disk.previous == map[] && disk.stage == staged
    {
      AllNames(newNames, staged);
      AllNames(oldNames, before);
      if i == |oldNames| {
        UndoNew(staged, newNames, k);
      }
      UndoOld(before, oldNames, i);
    }

    method MoveOldOut(ghost before: Directory, ghost staged: Directory, oldNames: seq<string>, ghost newNames: seq<string>)
      returns (ok: bool, i: nat)
      requires Lists(oldNames, before) && Lists(newNames, staged) && PartWay(disk, before, staged, oldNames, newNames, 0, 0)
      modifies disk`fuse, disk`root, disk`previous
      ensures i <= |oldNames| && (ok ==> i == |oldNames|) && PartWay(disk, before, staged, oldNames, newNames, i, 0)
      ensures Works(old(disk.fuse), disk.fuse, ok)
    {
      AllNames(oldNames, before);
      ok, i := true, 0;
      while ok && i < |oldNames|
        invariant i <= |oldNames| && disk.stage == old(disk.stage) && Works(old(disk.fuse), disk.fuse, ok)
        invariant disk.root == Without(before, oldNames[..i]) && disk.previous == Kept(before, oldNames[..i])
      {
        NextName(oldNames, before, i);
        ok := disk.MoveOut(oldNames[i]);
        i := if ok then i + 1 else i;
      }
      AllNames(newNames, staged);
    }

    method MoveNewIn(ghost before: Directory, ghost staged: Directory, ghost oldNames: seq<string>, newNames: seq<string>)
      returns (ok: bool, k: nat)
      requires Lists(newNames, staged) && PartWay(disk, before, staged, oldNames, newNames, |oldNames|, 0)
      modifies disk`fuse, disk`root, disk`stage
      ensures k <= |newNames| && (ok ==> k == |newNames|) && PartWay(disk, before, staged, oldNames, newNames, |oldNames|, k)
      ensures Works(old(disk.fuse), disk.fuse, ok)
    {
      ok, k := true, 0;
      while ok && k < |newNames|
        invariant k <= |newNames| && disk.previous == old(disk.previous) && Works(old(disk.fuse), disk.fuse, ok)
        invariant disk.root == Kept(staged, newNames[..k]) && disk.stage == Without(staged, newNames[..k])
      {
        NextName(newNames, staged, k);
        ok := disk.MoveIn(newNames[k]);
        k := if ok then k + 1 else k;
      }
    }

    /** Replaces the workspace as a whole or leaves it as it was. */
    method ReplaceWorkspace(staged: Directory, oldNames: seq<string>, newNames: seq<string>) returns (ok: bool)
      requires Lists(oldNames, disk.root) && Lists(newNames, staged)
      modifies disk`fuse, disk`root, disk`stage, disk`previous
      ensures disk.root == if ok then staged else old(disk.root)
      ensures Works(old(disk.fuse), disk.fuse, ok)
    {
      ghost var before := disk.root;
      ok := disk.Attempt();
      if !ok {
        return;
      }
      disk.stage, disk.previous := staged, map[];
      AllNames(oldNames, before);
      AllNames(newNames, staged);
      var i, k := 0, 0;
      ok, i := MoveOldOut(before, staged, oldNames, newNames);
      if ok {
        ok, k := MoveNewIn(before, staged, oldNames, newNames);
      }
      if !ok {
        UndoWorkspace(before, staged, oldNames, newNames, i, k);
      }
      disk.stage, disk.previous := map[], map[];
    }

    /** Moves a copied snapshot into place; if that fails the old file is moved back at once. */
    method PlaceStaged(t: Target, ghost before: Files, ghost done: set<Slot>) returns (ok: bool)
      requires SetAside(before, disk.files, done) && Slot(t.store, Main) !in done
      requires Get(disk.files, Staged(t.store)) == Some(t.snapshot)
      modifies disk`fuse, disk`files
      ensures SetAside(before, disk.files, if ok then done + {Slot(t.store, Main)} else done)
      ensures OthersStay(old(disk.files), disk.files, Slot(t.store, Main))
      ensures ok ==> Get(disk.files, Live(Slot(t.store, Main))) == Some(t.snapshot)
      ensures Works(old(disk.fuse), disk.fuse, ok)
    {
      var slot := Slot(t.store, Main);
      assert SlotOk(before, disk.files, done, slot);
      if Live(slot) in disk.files {
        ok := disk.Rename(Live(slot), Previous(slot));
        if !ok {
          return;
        }
      }
      ok := disk.Rename(Staged(t.store), Live(slot));
      if !ok && Previous(slot) in disk.files {
        disk.files := Moved(disk.files, Previous(slot), Live(slot));
      }
      SlotStep(before, old(disk.files), disk.files, done, if ok then done + {slot} else done, slot);
    }

    method MoveSidecar(slot: Slot, ghost before: Files, ghost done: set<Slot>) returns (ok: bool)
      requires SetAside(before, disk.files, done) && slot !in done && Live(slot) in disk.files
      modifies disk`fuse, disk`files
      ensures SetAside(before, disk.files, if ok then done + {slot} else done)
      ensures OthersStay(old(disk.files), disk.files, slot)
      ensures ok ==> Live(slot) !in disk.files
      ensures Works(old(disk.fuse), disk.fuse, ok)
    {
      assert SlotOk(before, disk.files, done, slot);
      ok := disk.Rename(Live(slot), Previous(slot));
      SlotStep(before, old(disk.files), disk.files, done, if ok then done + {slot} else done, slot);
    }

    /** Puts one store in place and sets its old files aside; `replaced` grows by what a failure has to undo. */
    method ReplaceStore(t: Target, replaced: seq<Slot>, ghost before: Files) returns (ok: bool, replaced': seq<Slot>)
      requires SetAside(before, disk.files, Slots(replaced)) && Fresh(replaced) && Untouched(Slots(replaced), t.store)
      modifies disk`fuse, disk`files
      ensures SetAside(before, disk.files, Slots(replaced')) && Fresh(replaced')
      ensures forall s | s in replaced' :: s in replaced || s.store == t.store
      ensures forall s: Slot | s.store != t.store :: Get(disk.files, Live(s)) == Get(old(disk.files), Live(s))
      ensures ok ==> Restored(disk.files, t.store, t.snapshot)
      ensures Works(old(disk.fuse), disk.fuse, ok)
    {
      replaced' := replaced;
      ok := disk.Copy(t.snapshot, Staged(t.store));
      ghost var slot := Slot(t.store, Main);
      assert SlotOk(before, old(disk.files), Slots(replaced), slot);
      assert Get(disk.files, Live(slot)) == Get(old(disk.files), Live(slot));
      assert Get(disk.files, Previous(slot)) == Get(old(disk.files), Previous(slot));
      SlotStep(before, old(disk.files), disk.files, Slots(replaced), Slots(replaced), slot);
      if !ok {
        return;
      }
      ok := PlaceStaged(t, before, Slots(replaced));
      if !ok {
        return;
      }
      replaced' := Appended(replaced, Slot(t.store, Main));
      var i := 0;
      while i < |SIDECARS|
        invariant 0 <= i <= |SIDECARS| && Works(old(disk.fuse), disk.fuse, true)
        invariant SetAside(before, disk.files, Slots(replaced')) && Fresh(replaced')
        invariant forall s | s in replaced' :: s in replaced || (s.store == t.store && (s.part.Main? || s.part in SIDECARS[..i]))
        invariant forall s: Slot | s.store != t.store :: Get(disk.files, Live(s)) == Get(old(disk.files), Live(s))
        invariant Get(disk.files, Live(Slot(t.store, Main))) == Some(t.snapshot)
        invariant forall part | part in SIDECARS[..i] :: Live(Slot(t.store, part)) !in disk.files
      {
        var slot := Slot(t.store, SIDECARS[i]);
        assert SIDECARS[..i + 1] == SIDECARS[..i] + [SIDECARS[i]];
        if Live(slot) in disk.files {
          ok := MoveSidecar(slot, before, Slots(replaced'));
          if !ok {
            return;
          }
          replaced' := Appended(replaced', slot);
        }
        i := i + 1;
      }
    }

    /** The outer undo, in reverse: drop what is in place and bring the old file back. */
    method UndoStores(replaced: seq<Slot>, ghost before: Files)
      requires SetAside(before, disk.files, Slots(replaced)) && Fresh(replaced)
      modifies disk`files
      ensures SetAside(before, disk.files, {}) && SameLive(before, disk.files)
    {
      var i := |replaced|;
      assert replaced[..i] == replaced;
      while i > 0
        invariant 0 <= i <= |replaced| && SetAside(before, disk.files, Slots(replaced[..i]))
      {
        ghost var files := disk.files;
        i := i - 1;
        var slot := replaced[i];
        LastSlot(replaced, i);
        assert SlotOk(before, files, Slots(replaced[..i + 1]), slot);
        if Live(slot) in disk.files {
          disk.files := disk.files - {Live(slot)};
        }
        if Previous(slot) in disk.files {
          disk.files := Moved(disk.files, Previous(slot), Live(slot));
        }
        SlotStep(before, files, disk.files, Slots(replaced[..i + 1]), Slots(replaced[..i]), slot);
      }
      assert Slots(replaced[..0]) == {};
      NothingAside(before, disk.files);
    }

    /**
     Replaces every store and the workspace, or leaves all of them as they were. It gives up only after an operation failed;
     when none does, everything is replaced.
     */
    method RestoreBackup(targets: seq<Target>, workspace: Directory, oldNames: seq<string>, newNames: seq<string>) returns (ok: bool)
      requires OnlyLive(disk.files) && Lists(oldNames, disk.root) && Lists(newNames, workspace)
      requires forall i, j | 0 <= i < j < |targets| :: targets[i].store != targets[j].store
      modifies disk
      ensures old(disk.fuse) == 0 ==> ok && forall s: Slot :: Previous(s) !in disk.files
      ensures !ok ==> old(disk.fuse) > 0 && disk.fuse == 0
      ensures !ok ==> disk.root == old(disk.root) && forall s: Slot :: Get(disk.files, Live(s)) == Get(old(disk.files), Live(s))
      ensures ok ==> disk.root == workspace
      ensures ok ==> forall t | t in targets :: Get(disk.files, Live(Slot(t.store, Main))) == Some(t.snapshot)
      ensures ok ==> forall t | t in targets :: forall part | part in {Wal, Shm, Journal} :: Live(Slot(t.store, part)) !in disk.files
      ensures ok ==> forall s: Slot | (forall t | t in targets :: t.store != s.store) :: Get(disk.files, Live(s)) == Get(old(disk.files), Live(s))
    {
      ghost var before := disk.files;
      var replaced: seq<Slot> := [];
      var i := 0;
      ok := true;
      while ok && i < |targets|
        invariant 0 <= i <= |targets| && Works(old(disk.fuse), disk.fuse, ok)
        invariant SetAside(before, disk.files, Slots(replaced)) && Fresh(replaced)
        invariant disk.root == old(disk.root)
        invariant ok ==> forall j | i <= j < |targets| :: Untouched(Slots(replaced), targets[j].store)
        invariant ok ==> forall j | 0 <= j < i :: Restored(disk.files, targets[j].store, targets[j].snapshot)
        invariant forall s: Slot | (forall t | t in targets :: t.store != s.store) :: Get(disk.files, Live(s)) == Get(before, Live(s))
      {
        ok, replaced := ReplaceStore(targets[i], replaced, before);
        i := i + 1;
      }
      if ok {
        ok := ReplaceWorkspace(workspace, oldNames, newNames);
      }
      if !ok {
        UndoStores(replaced, before);
        return;
      }
      ghost var files := disk.files;
      RemovePrevious(replaced);
      forall s: Slot ensures old(disk.fuse) == 0 ==> Previous(s) !in disk.files {
        assert s !in replaced ==> s !in Slots(replaced);
        assert SlotOk(before, files, Slots(replaced), s);
      }
    }

    // The old files are removed; one that cannot be removed stays as a recovery copy.
    method RemovePrevious(replaced: seq<Slot>)
      modifies disk`fuse, disk`files
      ensures forall s: Slot :: Get(disk.files, Live(s)) == Get(old(disk.files), Live(s))
      ensures old(disk.fuse) == 0 ==>
        forall s: Slot :: Previous(s) in disk.files <==> Previous(s) in old(disk.files) && s !in replaced
    {
      for i := 0 to |replaced|
        invariant forall s: Slot :: Get(disk.files, Live(s)) == Get(old(disk.files), Live(s))
        invariant old(disk.fuse) == 0 ==> disk.fuse == 0
        invariant old(disk.fuse) == 0 ==>
          forall s: Slot :: Previous(s) in disk.files <==> Previous(s) in old(disk.files) && s !in replaced[..i]
      {
        assert replaced[..i + 1] == replaced[..i] + [replaced[i]];
        var removed := disk.Attempt();
        if removed {
          disk.files := disk.files - {Previous(replaced[i])};
        }
      }
    }
  }

  // One slot at a time.
  lemma SlotStep(before: Files, files: Files, files': Files, done: set<Slot>, done': set<Slot>, slot: Slot)
    requires SetAside(before, files, done) && OthersStay(files, files', slot)
    requires done - {slot} == done' - {slot} && SlotOk(before, files', done', slot)
    ensures SetAside(before, files', done')
  {
    forall s: Slot ensures SlotOk(before, files', done', s) {
      assert SlotOk(before, files, done, s);
      assert s != slot ==> (s in done <==> s in done - {slot}) && (s in done' <==> s in done' - {slot});
      assert s != slot ==> Get(files', Previous(s)) == Get(files, Previous(s));
    }
  }

  function Appended(q: seq<Slot>, s: Slot): (r: seq<Slot>)
    ensures Slots(r) == Slots(q) + {s}
    ensures Fresh(q) && s !in Slots(q) ==> Fresh(r)
  {
    q + [s]
  }

  lemma LastSlot(q: seq<Slot>, i: nat)
    requires i < |q| && Fresh(q)
    ensures Slots(q[..i + 1]) == Slots(q[..i]) + {q[i]} && q[i] !in Slots(q[..i])
  {
    assert q[..i + 1] == q[..i] + [q[i]];
  }

  lemma NothingAside(before: Files, files: Files)
    requires SetAside(before, files, {})
    ensures SameLive(before, files)
  {
    forall s: Slot ensures Get(files, Live(s)) == Get(before, Live(s)) {
      assert SlotOk(before, files, {}, s);
    }
  }

  // The undo with its two loops swapped: old entries first, then the new ones.
  function OldFirst(before: Directory, staged: Directory, moved: set<string>): Directory {
    ((map n | n in staged && n in moved :: staged[n]) + before) - moved
  }

  /** Undoing in the other order is right if and only if no new entry had the name of an old one. */
  lemma OldFirstRestoresIff(before: Directory, staged: Directory, moved: set<string>)
    requires moved <= staged.Keys
    ensures OldFirst(before, staged, moved) == before <==> moved !! before.Keys
  {
    if OldFirst(before, staged, moved) == before {
      forall n | n in moved ensures n !in before {
        assert n !in OldFirst(before, staged, moved);
      }
    }
  }
}
