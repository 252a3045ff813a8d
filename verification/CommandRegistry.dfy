/** The command registry: commands by id, and an index from command roots to ids. */
module CommandRegistry {

  import opened Wrappers
  import opened CommandText

  datatype Descriptor = Descriptor(id: string, name: string, aliases: seq<string>,
                                   plugin: bool, pluginId: string)

  datatype Index = Index(byId: map<string, Descriptor>, rootIds: map<string, string>)

  datatype RegistryError =
    | IdRequired
    | NameRequired
    | Reserved(root: string)
    | IdTaken(id: string)
    | RootTaken(root: string, owner: string)
    | NotRegistered(id: string)

  const RESERVED: set<string> := {
    "help", "sid", "new", "switch", "reset", "clear", "compact", "forget", "stop", "quiet", "bad",
    "set", "unset", "plugin", "plugins", "provider", "model", "memory", "config", "admin"
  }

  predicate IsReservedRoot(root: string)
  {
    NormalizeRoot(root) in RESERVED
  }

  /** The distinct non-empty normal forms of `names`, in order of first appearance. */
  function RootsOf(names: seq<string>): seq<string>
  {
    if names == [] then []
    else
      var before := RootsOf(names[..|names| - 1]);
      var root := NormalizeRoot(names[|names| - 1]);
      if root == "" || root in before then before else before + [root]
  }

  predicate NoRepeats<T(==)>(s: seq<T>)
  {
    forall i, j :: 0 <= i < j < |s| ==> s[i] != s[j]
  }

  lemma NoRepeatsAppend<T>(s: seq<T>, x: T)
    requires NoRepeats(s) && x !in s
    ensures NoRepeats(s + [x])
  {}

  lemma {:induction false} RootsOfDistinct(names: seq<string>)
    ensures NoRepeats(RootsOf(names))
  {
    if names != [] {
      var last := |names| - 1;
      RootsOfDistinct(names[..last]);
      var before, root := RootsOf(names[..last]), NormalizeRoot(names[last]);
      if root != "" && root !in before {
        NoRepeatsAppend(before, root);
      }
    }
  }

  lemma {:induction false} RootsOfExactly(names: seq<string>, root: string)
    ensures root in RootsOf(names) <==> root != "" && exists name :: name in names && NormalizeRoot(name) == root
  {
    if names != [] {
      var last := |names| - 1;
      assert names == names[..last] + [names[last]];
      RootsOfExactly(names[..last], root);
    }
  }

  /** The roots a descriptor answers to: those of its name and of its aliases. */
  function DescriptorRoots(d: Descriptor): seq<string>
  {
    RootsOf([d.name] + d.aliases)
  }

  function FirstReserved(roots: seq<string>): Option<string>
  {
    if roots == [] then None
    else if IsReservedRoot(roots[0]) then Some(roots[0])
    else FirstReserved(roots[1..])
  }

  /** The first root that is taken already, by a command other than `except` if there is one. */
  function FirstTaken(roots: seq<string>, rootIds: map<string, string>, except: Option<string>): (r: Option<string>)
    ensures r.Some? ==> r.value in rootIds
  {
    if roots == [] then None
    else if roots[0] in rootIds && Some(rootIds[roots[0]]) != except then Some(roots[0])
    else FirstTaken(roots[1..], rootIds, except)
  }

  /** What the registry stores for a descriptor offered for registration. */
  function Stored(d: Descriptor): Descriptor
  {
    d.(id := Trim(d.id), name := NormalizeRoot(d.name))
  }

  function RegisterError(ix: Index, offered: Descriptor): Option<RegistryError>
  {
    var d := Stored(offered);
    var roots := DescriptorRoots(d);
    if d.id == "" then Some(IdRequired)
    else if d.name == "" then Some(NameRequired)
    else if d.plugin && FirstReserved(roots).Some? then Some(Reserved(FirstReserved(roots).value))
    else if d.id in ix.byId then Some(IdTaken(d.id))
    else
      var taken := FirstTaken(roots, ix.rootIds, None);
      if taken.Some? then Some(RootTaken(taken.value, ix.rootIds[taken.value])) else None
  }

  function Claimed(rootIds: map<string, string>, roots: seq<string>, id: string): map<string, string>
  {
    rootIds + map r | r in roots :: id
  }

  function Released(rootIds: map<string, string>, roots: seq<string>, id: string): map<string, string>
  {
    map r | r in rootIds && !(r in roots && rootIds[r] == id) :: rootIds[r]
  }

  function RegisterTx(ix: Index, offered: Descriptor): Index
  {
    var d := Stored(offered);
    if RegisterError(ix, offered).Some? then ix
    else Index(ix.byId[d.id := d], Claimed(ix.rootIds, DescriptorRoots(d), d.id))
  }

  /** The descriptor after a change of roots; an empty name keeps the old one. */
  function Renamed(d: Descriptor, name: string, aliases: seq<string>): Descriptor
  {
    d.(name := if NormalizeRoot(name) == "" then d.name else NormalizeRoot(name), aliases := aliases)
  }

  function UpdateError(ix: Index, rawId: string, name: string, aliases: seq<string>): Option<RegistryError>
  {
    var id := Trim(rawId);
    if id == "" then Some(IdRequired)
    else if id !in ix.byId then Some(NotRegistered(id))
    else
      var next := Renamed(ix.byId[id], name, aliases);
      var roots := DescriptorRoots(next);
      if next.plugin && FirstReserved(roots).Some? then Some(Reserved(FirstReserved(roots).value))
      else
        var taken := FirstTaken(roots, ix.rootIds, Some(id));
        if taken.Some? then Some(RootTaken(taken.value, ix.rootIds[taken.value])) else None
  }

  function UpdateTx(ix: Index, rawId: string, name: string, aliases: seq<string>): Index
  {
    var id := Trim(rawId);
    if UpdateError(ix, rawId, name, aliases).Some? then ix
    else
      var next := Renamed(ix.byId[id], name, aliases);
      Index(ix.byId[id := next],
            Claimed(Released(ix.rootIds, DescriptorRoots(ix.byId[id]), id), DescriptorRoots(next), id))
  }

  predicate BelongsTo(d: Descriptor, pluginId: string)
  {
    d.plugin && Trim(d.pluginId) == Trim(pluginId) && Trim(pluginId) != ""
  }

  function OwnedBy(ix: Index, pluginId: string): set<string>
  {
    set id | id in ix.byId && BelongsTo(ix.byId[id], pluginId)
  }

  /** Drop the commands in `ids`, and each root that points to the command it is a root of. */
  function Without(ix: Index, ids: set<string>): Index
  {
    Index(ix.byId - ids,
          map r | r in ix.rootIds
                  && !(ix.rootIds[r] in ids && ix.rootIds[r] in ix.byId
                       && r in DescriptorRoots(ix.byId[ix.rootIds[r]])) :: ix.rootIds[r])
  }

  function Dropped(ix: Index, id: string, roots: seq<string>): Index
  {
    Index(ix.byId - {id}, Released(ix.rootIds, roots, id))
  }

  lemma WithoutNone(ix: Index)
    ensures Without(ix, {}) == ix
  {
    assert Without(ix, {}).rootIds == ix.rootIds;
  }

  lemma DoneStarts<T>(owned: set<T>, pending: set<T>)
    requires owned <= pending
    ensures owned - pending == {}
  {}

  lemma DoneGrows<T>(owned: set<T>, pending: set<T>, x: T)
    requires x in pending
    ensures x in owned ==> owned - (pending - {x}) == (owned - pending) + {x}
                           && |owned - (pending - {x})| == |owned - pending| + 1
    ensures x !in owned ==> owned - (pending - {x}) == owned - pending
  {
    if x in owned {
      assert owned - (pending - {x}) == (owned - pending) + {x};
    }
  }

  lemma ClaimedNone(rootIds: map<string, string>, id: string)
    ensures Claimed(rootIds, [], id) == rootIds
  {}

  lemma ClaimedOneMore(rootIds: map<string, string>, roots: seq<string>, i: nat, id: string)
    requires i < |roots|
    ensures Claimed(rootIds, roots[..i + 1], id) == Claimed(rootIds, roots[..i], id)[roots[i] := id]
  {
    assert roots[..i + 1] == roots[..i] + [roots[i]];
  }

  lemma WithoutOneMore(ix: Index, ids: set<string>, id: string)
    requires id in ix.byId && id !in ids
    ensures Without(ix, ids + {id}) == Dropped(Without(ix, ids), id, DescriptorRoots(ix.byId[id]))
  {
    var former, all := Without(ix, ids), Without(ix, ids + {id});
    assert all.byId == former.byId - {id};
    var rest := Released(former.rootIds, DescriptorRoots(ix.byId[id]), id);
    forall r ensures r in all.rootIds <==> r in rest {
      if r in ix.rootIds && ix.rootIds[r] == id {
        assert r in former.rootIds;
      }
    }
    assert all.rootIds == rest;
  }

  function UnregisterTx(ix: Index, pluginId: string): Index
  {
    Without(ix, OwnedBy(ix, pluginId))
  }

  function Resolve(ix: Index, root: string): Option<Descriptor>
  {
    if root in ix.rootIds && ix.rootIds[root] in ix.byId then Some(ix.byId[ix.rootIds[root]]) else None
  }

  /** The command that what a user typed names. */
  function Find(ix: Index, text: string): Option<Descriptor>
  {
    Resolve(ix, NormalizeRoot(text))
  }

  class Registry {
    var byId: map<string, Descriptor>
    var rootIds: map<string, string>

    constructor ()
      ensures Contents() == Index(map[], map[])
    {
      byId, rootIds := map[], map[];
    }

    ghost function Contents(): Index
      reads this
    {
      Index(byId, rootIds)
    }

    static method ListRoots(d: Descriptor) returns (roots: seq<string>)
      ensures roots == DescriptorRoots(d)
    {
      var names := [d.name] + d.aliases;
      var seen: set<string> := {};
      roots := [];
      var i := 0;
      while i < |names|
        invariant 0 <= i <= |names|
        invariant roots == RootsOf(names[..i])
        invariant forall r :: r in seen <==> r in roots
      {
        assert names[..i + 1][..i] == names[..i];
        var root := NormalizeRoot(names[i]);
        if root != "" && root !in seen {
          seen := seen + {root};
          roots := roots + [root];
        }
        i := i + 1;
      }
      assert names[..i] == names;
    }

    static method FindReserved(roots: seq<string>) returns (found: Option<string>)
      ensures found == FirstReserved(roots)
    {
      var i := 0;
      while i < |roots|
        invariant 0 <= i <= |roots|
        invariant FirstReserved(roots) == FirstReserved(roots[i..])
      {
        if IsReservedRoot(roots[i]) {
          return Some(roots[i]);
        }
        i := i + 1;
      }
      found := None;
    }

    method FindTaken(roots: seq<string>, except: Option<string>) returns (found: Option<string>)
      ensures found == FirstTaken(roots, rootIds, except)
    {
      var i := 0;
      while i < |roots|
        invariant 0 <= i <= |roots|
        invariant FirstTaken(roots, rootIds, except) == FirstTaken(roots[i..], rootIds, except)
      {
        if roots[i] in rootIds && Some(rootIds[roots[i]]) != except {
          return Some(roots[i]);
        }
        i := i + 1;
      }
      found := None;
    }

    method ClaimRoots(roots: seq<string>, id: string)
      modifies `rootIds
      ensures rootIds == Claimed(old(rootIds), roots, id)
    {
      hide Claimed;
      ClaimedNone(rootIds, id);
      var i := 0;
      while i < |roots|
        invariant 0 <= i <= |roots|
        invariant rootIds == Claimed(old(rootIds), roots[..i], id)
      {
        ClaimedOneMore(old(rootIds), roots, i, id);
        rootIds := rootIds[roots[i] := id];
        i := i + 1;
      }
      assert roots[..i] == roots;
    }

    method ReleaseRoots(roots: seq<string>, id: string)
      modifies `rootIds
      ensures rootIds == Released(old(rootIds), roots, id)
    {
      var i := 0;
      while i < |roots|
        invariant 0 <= i <= |roots|
        invariant rootIds == Released(old(rootIds), roots[..i], id)
      {
        if roots[i] in rootIds && rootIds[roots[i]] == id {
          rootIds := rootIds - {roots[i]};
        }
        i := i + 1;
      }
      assert roots[..i] == roots;
    }

    method TryRegister(offered: Descriptor) returns (error: Option<RegistryError>)
      modifies this
      ensures error == RegisterError(old(Contents()), offered)
      ensures Contents() == RegisterTx(old(Contents()), offered)
    {
      var d := offered.(id := Trim(offered.id), name := NormalizeRoot(offered.name));
      if d.id == "" {
        return Some(IdRequired);
      }
      if d.name == "" {
        return Some(NameRequired);
      }
      var roots := ListRoots(d);
      if d.plugin {
        var reserved := FindReserved(roots);
        if reserved.Some? {
          return Some(Reserved(reserved.value));
        }
      }
      if d.id in byId {
        return Some(IdTaken(d.id));
      }
      var taken := FindTaken(roots, None);
      if taken.Some? {
        return Some(RootTaken(taken.value, rootIds[taken.value]));
      }
      ClaimRoots(roots, d.id);
      byId := byId[d.id := d];
      error := None;
    }

    method UpdateRoots(rawId: string, name: string, aliases: seq<string>) returns (error: Option<RegistryError>)
      modifies this
      ensures error == UpdateError(old(Contents()), rawId, name, aliases)
      ensures Contents() == UpdateTx(old(Contents()), rawId, name, aliases)
    {
      var id := Trim(rawId);
      var root := NormalizeRoot(name);
      if id == "" {
        return Some(IdRequired);
      }
      if id !in byId {
        return Some(NotRegistered(id));
      }
      var descriptor := byId[id];
      if root == "" {
        root := descriptor.name;
      }
      var next := descriptor.(name := root, aliases := aliases);
      var roots := ListRoots(next);
      if next.plugin {
        var reserved := FindReserved(roots);
        if reserved.Some? {
          return Some(Reserved(reserved.value));
        }
      }
      var taken := FindTaken(roots, Some(id));
      if taken.Some? {
        return Some(RootTaken(taken.value, rootIds[taken.value]));
      }
      var former := ListRoots(descriptor);
      ReleaseRoots(former, id);
      ClaimRoots(roots, id);
      byId := byId[id := next];
      error := None;
    }

    method Drop(id: string, d: Descriptor)
      modifies this
      ensures Contents() == Dropped(old(Contents()), id, DescriptorRoots(d))
    {
      var roots := ListRoots(d);
      ReleaseRoots(roots, id);
      byId := byId - {id};
    }

    method UnregisterPlugin(pluginId: string) returns (removed: nat)
      modifies this
      ensures Contents() == UnregisterTx(old(Contents()), pluginId)
      ensures removed == |OwnedBy(old(Contents()), pluginId)|
    {
      ghost var ix := Contents();
      ghost var owned := OwnedBy(ix, pluginId);
      removed := 0;
      WithoutNone(ix);
      var plugin := Trim(pluginId);
      if plugin == "" {
        assert owned == {};
        return;
      }
      var pending := byId.Keys;
      DoneStarts(owned, pending);
      while pending != {}
        invariant pending <= ix.byId.Keys
        invariant Contents() == Without(ix, owned - pending)
        invariant removed == |owned - pending|
        decreases |pending|
      {
        var id :| id in pending;
        var d := byId[id];
        DoneGrows(owned, pending, id);
        if d.plugin && Trim(d.pluginId) == plugin {
          WithoutOneMore(ix, owned - pending, id);
          Drop(id, d);
          removed := removed + 1;
        }
        pending := pending - {id};
      }
      assert owned - pending == owned;
    }

    method Lookup(root: string) returns (found: Option<Descriptor>)
      ensures found == Find(Contents(), root)
    {
      var r := NormalizeRoot(root);
      if r !in rootIds {
        return None;
      }
      if rootIds[r] !in byId {
        return None;
      }
      found := Some(byId[rootIds[r]]);
    }
  }
}
