/** Requests to create, subscribe and unsubscribe folders: what they record, what the list of
    synced mailboxes is afterwards, and that no two folders ever share a local path. */
module FolderRequests {
  import opened Wrappers
  import opened Utf8
  import opened FolderOverrides
  import FolderNames

  datatype Folder = Folder(id: Name, name: Name, selectable: bool, canCreateChild: bool)

  datatype Action = List | Create | Subscribe | Unsubscribe

  datatype Request = Request(action: Action, mailbox: Name, name: Name, parent: Name, local: Name)

  datatype FolderError =
    | Failed | BadName | BadParent | Exists | Gone | NotSelectable | BadLocal | WouldMove
    | PathTaken(other: Name) | PathExists | SharedPath

  /** Every mapping on record, active or not. */
  function All(ms: seq<Mailbox>, os: seq<Override>): (r: seq<Mailbox>)
    ensures |r| == |ms| + |os|
    ensures forall i :: 0 <= i < |ms| ==> r[i] == ms[i]
    ensures forall i :: 0 <= i < |os| ==> r[|ms| + i] == Mailbox(os[i].remote, os[i].local)
  {
    ms + seq(|os|, i requires 0 <= i < |os| => Mailbox(os[i].remote, os[i].local))
  }

  predicate Known(ms: seq<Mailbox>, os: seq<Override>, m: Mailbox) {
    m in ms || exists i :: 0 <= i < |os| && os[i].remote == m.remote && os[i].local == m.local
  }

  /** Different remotes have different paths. */
  ghost predicate Apart(pathOf: Name -> Name, ms: seq<Mailbox>, os: seq<Override>) {
    forall x, y :: Known(ms, os, x) && Known(ms, os, y) && x.remote != y.remote ==> pathOf(x.local) != pathOf(y.local)
  }

  /** No mapping is of a remote without a name. */
  ghost predicate Named(ms: seq<Mailbox>, os: seq<Override>) {
    (forall m :: m in ms ==> m.remote != []) && (forall i :: 0 <= i < |os| ==> os[i].remote != [])
  }

  /** No record loses or changes its path. */
  ghost predicate KeepsPaths(older: seq<Override>, newer: seq<Override>) {
    |older| <= |newer| && forall i :: 0 <= i < |older| ==> newer[i].remote == older[i].remote && newer[i].local == older[i].local
  }

  ghost predicate Free(pathOf: Name -> Name, ms: seq<Mailbox>, os: seq<Override>, m: Mailbox) {
    forall x :: Known(ms, os, x) && x.remote != m.remote ==> pathOf(x.local) != pathOf(m.local)
  }

  /** A saved mapping on a free path keeps all paths apart after a reload. */
  lemma SaveKeepsApart(pathOf: Name -> Name, base: seq<Mailbox>, os: seq<Override>, o: Override)
    requires OncePerRemote(os) && Apart(pathOf, Applied(base, os), os)
    requires Free(pathOf, Applied(base, os), os, Mailbox(o.remote, o.local))
    ensures Apart(pathOf, Applied(base, Saved(os, o)), Saved(os, o))
  {
    var now := Saved(os, o);
    SavedOnce(os, o);
    forall x | Known(Applied(base, now), now, x)
      ensures x == Mailbox(o.remote, o.local) || (x.remote != o.remote && Known(Applied(base, os), os, x))
    {
      AppliedHas(base, now, x);
      AppliedHas(base, os, x);
      if i :| 0 <= i < |now| && now[i].remote == x.remote && now[i].local == x.local {
        assert now[i].remote != o.remote ==> now[i] == os[i];
      }
    }
  }

  lemma SaveKeepsNames(base: seq<Mailbox>, os: seq<Override>, o: Override)
    requires OncePerRemote(os) && Named(base, os) && o.remote != []
    ensures Named(base, Saved(os, o)) && OncePerRemote(Saved(os, o))
  {
  }

  /** A path that is free for a folder yet to be created is free for it under whatever id it gets. */
  lemma FreeForNew(pathOf: Name -> Name, base: seq<Mailbox>, os: seq<Override>, local: Name, created: Name)
    requires OncePerRemote(os) && Named(base, os)
    requires Free(pathOf, Applied(base, os), os, Mailbox([], local))
    ensures Free(pathOf, Applied(base, os), os, Mailbox(created, local))
  {
    forall x | Known(Applied(base, os), os, x) ensures x.remote != [] {
      AppliedHas(base, os, x);
    }
  }

  /** Saving a known mapping, or one for a remote not on record, changes no recorded path. */
  lemma SaveKeepsPaths(base: seq<Mailbox>, os: seq<Override>, o: Override)
    requires OncePerRemote(os)
    requires Known(Applied(base, os), os, Mailbox(o.remote, o.local)) || forall i :: 0 <= i < |os| ==> os[i].remote != o.remote
    ensures KeepsPaths(os, Saved(os, o))
  {
    var k := Index(os, o.remote);
    if k < |os| {
      AppliedHas(base, os, Mailbox(o.remote, o.local));
      assert o.remote in Remotes(os);
      assert forall i :: 0 <= i < |os| && os[i].remote == o.remote ==> i == k;
    }
  }

  /** The saved mapping is the one its remote has after the overrides are applied, if it is enabled. */
  lemma SavedShows(base: seq<Mailbox>, os: seq<Override>, o: Override)
    requires OncePerRemote(os)
    ensures o.enabled ==> Mailbox(o.remote, o.local) in Applied(base, Saved(os, o))
    ensures !o.enabled ==> forall m :: m in Applied(base, Saved(os, o)) ==> m.remote != o.remote
  {
    var now := Saved(os, o);
    SavedOnce(os, o);
    AppliedHas(base, now, Mailbox(o.remote, o.local));
    if !o.enabled {
      forall m | m in Applied(base, now) ensures m.remote != o.remote {
        AppliedHas(base, now, m);
      }
    }
  }

  /** Mailboxes whose remotes differ and whose paths are apart never collide when paths are collected. */
  ghost predicate PathsDiffer(pathOf: Name -> Name, ms: seq<Mailbox>) {
    forall i, j :: 0 <= i < j < |ms| ==> pathOf(ms[i].local) != pathOf(ms[j].local)
  }

  lemma ApartDiffer(pathOf: Name -> Name, ms: seq<Mailbox>, os: seq<Override>)
    requires OneMailboxPerRemote(ms) && Apart(pathOf, ms, os)
    ensures PathsDiffer(pathOf, ms)
  {
  }

  class Manager {
    const base: seq<Mailbox>                  // the configured mappings
    const matches: (Name, Name) -> bool       // a recorded remote means the folder with this id
    const pathOf: Name -> Name                // the cleaned absolute path
    var mailboxes: seq<Mailbox>
    var records: seq<Override>                // the managed file

    constructor (base: seq<Mailbox>, matches: (Name, Name) -> bool, pathOf: Name -> Name)
      requires OneMailboxPerRemote(base) && PathsDiffer(pathOf, base) && Named(base, [])
      ensures Valid() && this.base == base && this.matches == matches && this.pathOf == pathOf
      ensures mailboxes == base && records == []
    {
      this.base, this.matches, this.pathOf := base, matches, pathOf;
      mailboxes, records := base, [];
    }

    /** A fresh start would find every remote once and all paths apart. */
    ghost predicate Reloadable()
      reads this
    {
      && OneMailboxPerRemote(base) && OncePerRemote(records) && Named(base, records)
      && Apart(pathOf, Applied(base, records), records)
    }

    /** The list in memory is what a fresh start would give. */
    ghost predicate Valid()
      reads this
    {
      Reloadable() && mailboxes == Applied(base, records)
    }

    // ---------------------------------------------------------------- the configuration

    /** Lays the records over the list and checks that no two mailboxes share a path. */
    method ApplyFolderOverrides() returns (shared: bool)
      modifies this`mailboxes
      ensures mailboxes == Applied(old(mailboxes), records)
      ensures PathsDiffer(pathOf, mailboxes) ==> !shared
    {
      var i := 0;
      while i < |records|
        invariant i <= |records| && mailboxes == Applied(old(mailboxes), records[..i])
      {
        var kept := KeepOthers(mailboxes, records[i].remote);
        assert records[..i + 1][..i] == records[..i];
        mailboxes := kept;
        if records[i].enabled {
          mailboxes := mailboxes + [Mailbox(records[i].remote, records[i].local)];
        }
        i := i + 1;
      }
      assert records[..i] == records;
      var paths: set<Name> := {};
      i := 0;
      while i < |mailboxes|
        invariant i <= |mailboxes|
        invariant forall p :: p in paths ==> exists k :: 0 <= k < i && pathOf(mailboxes[k].local) == p
      {
        var path := pathOf(mailboxes[i].local);
        if path in paths {
          return true;
        }
        paths := paths + {path};
        i := i + 1;
      }
      return false;
    }

    method KeepOthers(ms: seq<Mailbox>, remote: Name) returns (kept: seq<Mailbox>)
      ensures kept == Except(ms, {remote})
    {
      kept := [];
      var i := 0;
      while i < |ms|
        invariant i <= |ms| && kept == Except(ms[..i], {remote})
      {
        ExceptLast(ms[..i], ms[i], {remote});
        assert ms[..i + 1] == ms[..i] + [ms[i]];
        if ms[i].remote != remote {
          kept := kept + [ms[i]];
        }
        i := i + 1;
      }
      assert ms[..i] == ms;
    }

    /** Replaces the record for the remote, or adds it. */
    method SaveFolderOverride(o: Override) returns (ok: bool)
      modifies this`records
      ensures records == if ok then Saved(old(records), o) else old(records)
      ensures ok ==> o.remote != [] && o.local != []
      requires OncePerRemote(records)
    {
      var failed: bool := *;
      if failed || o.remote == [] || o.local == [] || 0 in o.local {
        return false;
      }
      var found := false;
      var now := records;
      var i := 0;
      while i < |now|
        invariant i <= |now| == |records|
        invariant found <==> Index(records, o.remote) < i
        invariant now == if found then records[Index(records, o.remote) := o] else records
      {
        if now[i].remote == o.remote {
          now := now[i := o];
          found := true;
        }
        i := i + 1;
      }
      if !found {
        now := now + [o];
      }
      records := now;
      return true;
    }

    /** Starts again from the configuration and the managed file. */
    method Reload() returns (shared: bool)
      requires Reloadable()
      modifies this`mailboxes
      ensures Valid() && !shared && (old(Valid()) ==> mailboxes == old(mailboxes))
    {
      mailboxes := base;
      AppliedOnce(base, records);
      ApartDiffer(pathOf, Applied(base, records), records);
      shared := ApplyFolderOverrides();
    }

    // ---------------------------------------------------------------- requests

    /** The mapping of a folder: an active one first, then any on record. */
    method Mapping(id: Name) returns (r: Option<Mailbox>)
      ensures r.Some? ==> Known(mailboxes, records, r.value) && matches(r.value.remote, id)
      ensures r.None? ==> forall m :: Known(mailboxes, records, m) ==> !matches(m.remote, id)
    {
      var i := 0;
      while i < |mailboxes|
        invariant i <= |mailboxes| && forall k :: 0 <= k < i ==> !matches(mailboxes[k].remote, id)
      {
        if matches(mailboxes[i].remote, id) {
          return Some(mailboxes[i]);
        }
        i := i + 1;
      }
      i := 0;
      while i < |records|
        invariant i <= |records| && forall k :: 0 <= k < i ==> !matches(records[k].remote, id)
      {
        if matches(records[i].remote, id) {
          return Some(Mailbox(records[i].remote, records[i].local));
        }
        i := i + 1;
      }
      return None;
    }

    /** Who has the path already, if anybody else. */
    method Taken(m: Mailbox) returns (r: Option<Name>)
      ensures r.None? ==> Free(pathOf, mailboxes, records, m)
      ensures r.Some? ==> !Free(pathOf, mailboxes, records, m)
    {
      var all := All(mailboxes, records);
      var i := 0;
      while i < |all|
        invariant i <= |all|
        invariant forall k :: 0 <= k < i ==> all[k].remote == m.remote || pathOf(all[k].local) != pathOf(m.local)
      {
        if all[i].remote != m.remote && pathOf(all[i].local) == pathOf(m.local) {
          assert Known(mailboxes, records, all[i]);
          return Some(all[i].remote);
        }
        i := i + 1;
      }
      forall x | Known(mailboxes, records, x) && x.remote != m.remote ensures pathOf(x.local) != pathOf(m.local) {
        if x in mailboxes {
          var k :| 0 <= k < |mailboxes| && mailboxes[k] == x;
          assert all[k] == x;
        } else {
          var k :| 0 <= k < |records| && records[k].remote == x.remote && records[k].local == x.local;
          assert all[|mailboxes| + k] == x;
        }
      }
      return None;
    }

    /** Chooses the mapping for a folder, and refuses one that would move mail or take a used path. */
    method Choose(req: Request, target: Folder) returns (r: Result<Mailbox, FolderError>)
      requires Valid() && !req.action.List?
      ensures r.Ok? ==> Free(pathOf, mailboxes, records, r.value)
      ensures r.Err? ==> r.error != SharedPath && (r.error == BadLocal ==> req.local != [])
      ensures r.Ok? && req.action != Create ==>
        || (Known(mailboxes, records, r.value) && matches(r.value.remote, target.id))
        || (r.value.remote == target.id && forall m :: Known(mailboxes, records, m) ==> !matches(m.remote, target.id))
      ensures r.Ok? && req.action == Create ==> r.value.remote == target.id && FolderNames.ValidLocal(r.value.local)
      ensures r.Ok? && req.action != Unsubscribe && req.local != [] ==> r.value.local == req.local
      ensures r.Ok? && req.action == Create && req.local == [] ==> r.value.local == Default(target.name)
    {
      FolderNames.SafeIsValid(target.name);
      var found := Mapping(target.id);
      if req.action == Create {
        found := None;
      }
      var m := Mailbox(target.id, if req.local == [] then Default(target.name) else req.local);
      if found.None? {
        if !FolderNames.ValidLocal(m.local) {
          return Err(BadLocal);
        }
        if req.action == Unsubscribe {
          m := Mailbox(target.id, Default(target.name));
        }
      } else {
        m := found.value;
        if req.local != [] && req.local != m.local {
          return Err(WouldMove);
        }
      }
      var taken := Taken(m);
      if taken.Some? {
        return Err(PathTaken(taken.value));
      }
      var there: bool := *;
      if found.None? && req.action != Unsubscribe && there {
        return Err(PathExists);
      }
      return Ok(m);
    }

    function Default(name: Name): (local: Name) {
      FolderNames.Text("Folders/") + FolderNames.Safe(name)
    }

    /** What the request is about: the listed folder, or the one to create, with a name that is valid, under
        a parent that is there and may have children, and that no folder has. */
    method Target(req: Request, rows: seq<Folder>) returns (r: Result<Folder, FolderError>)
      requires !req.action.List?
      ensures r.Err? ==> r.error in {BadName, BadParent, Exists, Gone, NotSelectable}
      ensures req.action == Create ==>
        && (r == Err(BadName) <==> !ValidNewName(req.name))
        && (r == Err(BadParent) <==> ValidNewName(req.name) && forall name :: !NewName(rows, req, name))
        && (r == Err(Exists) <==> ValidNewName(req.name) && exists f :: f in rows && NewName(rows, req, f.name))
        && (r.Ok? ==> r.value.id == [] && NewName(rows, req, r.value.name))
      ensures req.action != Create ==>
        && (r == Err(Gone) <==> forall f :: f in rows ==> f.id != req.mailbox)
        && (r.Ok? ==> exists i :: FirstOf(rows, req.mailbox, i) && r.value == rows[i])
        && (r == Err(NotSelectable) <==>
              req.action == Subscribe && exists i :: FirstOf(rows, req.mailbox, i) && !rows[i].selectable)
    {
      if req.action == Create {
        if !ValidNewName(req.name) {
          return Err(BadName);
        }
        var full := req.name;
        if req.parent != [] {
          var parent: Option<Folder> := None;
          var i := 0;
          ghost var p := 0;
          while i < |rows|
            invariant i <= |rows|
            invariant parent.None? ==> forall k :: 0 <= k < i ==> rows[k].id != req.parent
            invariant parent.Some? ==> p < i && LastOf(rows[..i], req.parent, p) && parent.value == rows[p]
          {
            if rows[i].id == req.parent {
              parent, p := Some(rows[i]), i;
            }
            i := i + 1;
          }
          assert rows[..i] == rows;
          if parent.None? || !parent.value.canCreateChild {
            return Err(BadParent);
          }
          full := parent.value.name + [FolderNames.Slash] + req.name;
        }
        assert NewName(rows, req, full);
        var i := 0;
        while i < |rows|
          invariant i <= |rows| && forall k :: 0 <= k < i ==> rows[k].name != full
        {
          if rows[i].name == full {
            return Err(Exists);
          }
          i := i + 1;
        }
        return Ok(Folder([], full, false, false));
      }
      var i := 0;
      while i < |rows| && rows[i].id != req.mailbox
        invariant i <= |rows| && forall k :: 0 <= k < i ==> rows[k].id != req.mailbox
      {
        i := i + 1;
      }
      if i == |rows| {
        return Err(Gone);
      }
      assert FirstOf(rows, req.mailbox, i);
      if !rows[i].selectable && req.action == Subscribe {
        return Err(NotSelectable);
      }
      return Ok(rows[i]);
    }

    /** One request. A success leaves memory and managed file in agreement and all paths apart; a
        failure leaves at least a managed file that a fresh start accepts. */
    method Handle(req: Request, rows: seq<Folder>) returns (r: Result<Option<Override>, FolderError>)
      requires Valid() && forall f :: f in rows ==> matches(f.id, f.id)
      modifies this
      ensures Reloadable() && (r.Ok? ==> Valid()) && (r.Err? ==> r.error != SharedPath)
      ensures r.Err? && records == old(records) ==> Valid()
      ensures req.action == List && r.Ok? ==> records == old(records) && mailboxes == old(mailboxes)
      ensures req.action != List && r.Ok? ==>
        r.value.Some? && records == Saved(old(records), r.value.value) && r.value.value.enabled == (req.action != Unsubscribe)
      ensures req.action in {Subscribe, Unsubscribe} && r.Ok? ==> matches(r.value.value.remote, req.mailbox)
      ensures req.action in {List, Subscribe, Unsubscribe} ==> KeepsPaths(old(records), records)
      ensures req.action in {Create, Subscribe} && r.Ok? && req.local != [] ==> r.value.value.local == req.local
      ensures req.action in {Create, Subscribe} && r.Ok? ==> Mailbox(r.value.value.remote, r.value.value.local) in mailboxes
      ensures req.action == Unsubscribe && r.Ok? ==> forall m :: m in mailboxes ==> m.remote != r.value.value.remote
    {
      if req.action == List {
        return Ok(None);
      }
      var target := Target(req, rows);
      if target.Err? {
        return Err(target.error);
      }
      var chosen := Choose(req, target.value);
      if chosen.Err? {
        return Err(chosen.error);
      }
      var m := chosen.value;
      var refused: bool := *;
      if refused {
        return Err(Failed);
      }
      if req.action == Create {
        var created: Name := *;
        FreeForNew(pathOf, base, records, m.local, created);
        m := Mailbox(created, m.local);
      } else {
        SaveKeepsPaths(base, records, Override(m.remote, m.local, req.action != Unsubscribe)) by {
          if !Known(mailboxes, records, m) {
            forall i | 0 <= i < |records| ensures records[i].remote != m.remote {
              assert Known(mailboxes, records, Mailbox(records[i].remote, records[i].local));
            }
          }
        }
      }
      r := Record(Override(m.remote, m.local, req.action != Unsubscribe));
    }

    /** Saves the mapping, makes its Maildir, and brings the list in memory up to date. */
    method Record(o: Override) returns (r: Result<Option<Override>, FolderError>)
      requires Valid() && Free(pathOf, mailboxes, records, Mailbox(o.remote, o.local))
      modifies this
      ensures Reloadable() && (r.Ok? ==> Valid()) && (r.Err? ==> r.error == Failed)
      ensures r.Err? ==> mailboxes == old(mailboxes) && (records == old(records) || records == Saved(old(records), o))
      ensures r.Ok? ==> r.value == Some(o) && records == Saved(old(records), o)
      ensures r.Ok? && o.enabled ==> Mailbox(o.remote, o.local) in mailboxes
      ensures r.Ok? && !o.enabled ==> forall m :: m in mailboxes ==> m.remote != o.remote
    {
      ghost var older := records;
      var saved := SaveFolderOverride(o);
      if !saved {
        return Err(Failed);
      }
      SaveKeepsApart(pathOf, base, older, o);
      SaveKeepsNames(base, older, o);
      var unmade: bool := *;
      if o.enabled && unmade {
        return Err(Failed);
      }
      SavedOnce(older, o);
      ReapplyIsReload(base, older, records);
      AppliedOnce(base, records);
      ApartDiffer(pathOf, Applied(base, records), records);
      SavedShows(base, older, o);
      var shared := ApplyFolderOverrides();
      r := if shared then Err(SharedPath) else Ok(Some(o));
    }
  }

  predicate FirstOf(rows: seq<Folder>, id: Name, i: int) {
    0 <= i < |rows| && rows[i].id == id && forall k :: 0 <= k < i ==> rows[k].id != id
  }

  predicate LastOf(rows: seq<Folder>, id: Name, i: int) {
    0 <= i < |rows| && rows[i].id == id && forall k :: i < k < |rows| ==> rows[k].id != id
  }

  /** The full name of the folder to create. */
  ghost predicate NewName(rows: seq<Folder>, req: Request, name: Name) {
    if req.parent == [] then name == req.name
    else exists i :: LastOf(rows, req.parent, i) && rows[i].canCreateChild && name == rows[i].name + [FolderNames.Slash] + req.name
  }

  /** A folder name as a person may enter it: one component, no blanks around, nothing unprintable. */
  predicate ValidNewName(name: Name) {
    && name != [] && |name| <= 255
    && !Blank(name[0]) && !Blank(name[|name| - 1])
    && (forall c :: c in name ==> c != FolderNames.Slash && c != '\\' as int && c != 0 && c != 13 && c != 10)
    && (forall r :: r in Runes(name) ==> !FolderNames.Control(r))
  }

  predicate Blank(c: byte) {
    c == 32 || 9 <= c <= 13
  }
}
