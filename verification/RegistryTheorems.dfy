/** What the command registry keeps over every sequence of registrations, renames and unloads. */
module RegistryTheorems {

  import opened Wrappers
  import opened CommandText
  import opened CommandRegistry

  /** A root points to a command exactly when it is one of that command's roots. */
  ghost predicate Agrees(byId: map<string, Descriptor>, rootIds: map<string, string>)
  {
    && (forall r :: r in rootIds ==> rootIds[r] in byId && r in DescriptorRoots(byId[rootIds[r]]))
    && (forall id, r :: id in byId && r in DescriptorRoots(byId[id]) ==> r in rootIds && rootIds[r] == id)
  }

  ghost predicate Allowed(d: Descriptor)
  {
    d.plugin ==> forall r :: r in DescriptorRoots(d) ==> !IsReservedRoot(r)
  }

  ghost predicate CommandsOk(byId: map<string, Descriptor>)
  {
    forall id :: id in byId ==> id != "" && byId[id].id == id && Allowed(byId[id])
  }

  ghost predicate IndexOk(ix: Index)
  {
    Agrees(ix.byId, ix.rootIds) && CommandsOk(ix.byId)
  }

  datatype Op =
    | Register(offered: Descriptor)
    | Update(rawId: string, name: string, aliases: seq<string>)
    | Unregister(pluginId: string)

  function Step(ix: Index, op: Op): Index
  {
    match op
    case Register(offered) => RegisterTx(ix, offered)
    case Update(rawId, name, aliases) => UpdateTx(ix, rawId, name, aliases)
    case Unregister(pluginId) => UnregisterTx(ix, pluginId)
  }

  function Run(ix: Index, ops: seq<Op>): Index
  {
    if ops == [] then ix else Step(Run(ix, ops[..|ops| - 1]), ops[|ops| - 1])
  }

  // ---- the searches ----

  lemma {:induction false} FirstReservedIff(roots: seq<string>)
    ensures FirstReserved(roots).None? <==> forall r :: r in roots ==> !IsReservedRoot(r)
  {
    if roots != [] {
      FirstReservedIff(roots[1..]);
      assert roots == [roots[0]] + roots[1..];
    }
  }

  lemma {:induction false} FirstTakenIff(roots: seq<string>, rootIds: map<string, string>, except: Option<string>)
    ensures FirstTaken(roots, rootIds, except).None?
            <==> forall r :: r in roots && r in rootIds ==> Some(rootIds[r]) == except
  {
    if roots != [] {
      FirstTakenIff(roots[1..], rootIds, except);
      assert roots == [roots[0]] + roots[1..];
    }
  }

  // ---- the index under each change ----

  lemma ClaimAgrees(byId: map<string, Descriptor>, rootIds: map<string, string>, id: string, d: Descriptor)
    requires Agrees(byId, rootIds) && id !in byId
    requires forall r :: r in DescriptorRoots(d) ==> r !in rootIds
    ensures Agrees(byId[id := d], Claimed(rootIds, DescriptorRoots(d), id))
  {
    hide DescriptorRoots;
    var after, claimed := byId[id := d], Claimed(rootIds, DescriptorRoots(d), id);
    forall r | r in claimed ensures claimed[r] in after && r in DescriptorRoots(after[claimed[r]]) {
      if r !in DescriptorRoots(d) {
        assert r in rootIds && rootIds[r] in byId;
      }
    }
    forall i, r | i in after && r in DescriptorRoots(after[i]) ensures r in claimed && claimed[r] == i {
      if i != id {
        assert i in byId && r in rootIds;
      }
    }
  }

  lemma ReleaseAgrees(byId: map<string, Descriptor>, rootIds: map<string, string>, id: string)
    requires Agrees(byId, rootIds) && id in byId
    ensures Agrees(byId - {id}, Released(rootIds, DescriptorRoots(byId[id]), id))
  {
    hide DescriptorRoots;
    var after, rest := byId - {id}, Released(rootIds, DescriptorRoots(byId[id]), id);
    forall r | r in rest ensures rest[r] in after && r in DescriptorRoots(after[rest[r]]) {
      assert r in rootIds && rootIds[r] in byId;
    }
    forall i, r | i in after && r in DescriptorRoots(after[i]) ensures r in rest && rest[r] == i {
      assert i in byId && r in rootIds;
    }
  }

  lemma WithoutAgrees(ix: Index, ids: set<string>)
    requires Agrees(ix.byId, ix.rootIds)
    ensures Agrees(Without(ix, ids).byId, Without(ix, ids).rootIds)
  {
    hide DescriptorRoots;
    var after := Without(ix, ids);
    forall r | r in after.rootIds
      ensures after.rootIds[r] in after.byId && r in DescriptorRoots(after.byId[after.rootIds[r]])
    {
      assert r in ix.rootIds && after.rootIds[r] == ix.rootIds[r];
    }
    forall i, r | i in after.byId && r in DescriptorRoots(after.byId[i])
      ensures r in after.rootIds && after.rootIds[r] == i
    {
      assert after.byId[i] == ix.byId[i];
    }
  }

  /** No root of `d` belongs to a command other than `except`. */
  ghost predicate NoClash(byId: map<string, Descriptor>, d: Descriptor, except: Option<string>)
  {
    forall id, r :: id in byId && Some(id) != except && r in DescriptorRoots(d) ==> r !in DescriptorRoots(byId[id])
  }

  lemma NotTakenIff(ix: Index, d: Descriptor, except: Option<string>)
    requires Agrees(ix.byId, ix.rootIds)
    ensures FirstTaken(DescriptorRoots(d), ix.rootIds, except).None? <==> NoClash(ix.byId, d, except)
  {
    hide DescriptorRoots, FirstTaken;
    var roots := DescriptorRoots(d);
    FirstTakenIff(roots, ix.rootIds, except);
    if FirstTaken(roots, ix.rootIds, except).None? {
      forall id, r | id in ix.byId && Some(id) != except && r in roots
        ensures r !in DescriptorRoots(ix.byId[id])
      {
        assert !(r in ix.rootIds && ix.rootIds[r] == id);
      }
    } else {
      var r :| r in roots && r in ix.rootIds && Some(ix.rootIds[r]) != except;
      assert ix.rootIds[r] in ix.byId && r in DescriptorRoots(ix.byId[ix.rootIds[r]]);
    }
  }

  /** Registration succeeds exactly for a new id with a name, none of whose roots is another
      command's, and, for a plugin, none of whose roots is reserved. */
  lemma RegistersIff(ix: Index, offered: Descriptor)
    requires IndexOk(ix)
    ensures RegisterError(ix, offered).None?
            <==> (var d := Stored(offered);
                  d.id != "" && d.name != "" && d.id !in ix.byId && Allowed(d) && NoClash(ix.byId, d, None))
  {
    var d := Stored(offered);
    FirstReservedIff(DescriptorRoots(d));
    NotTakenIff(ix, d, None);
  }

  /** A change of roots succeeds exactly for a known id when no new root is another command's
      and, for a plugin, none is reserved; a command may take back its own roots. */
  lemma UpdatesIff(ix: Index, rawId: string, name: string, aliases: seq<string>)
    requires IndexOk(ix)
    ensures UpdateError(ix, rawId, name, aliases).None?
            <==> (var id := Trim(rawId);
                  id in ix.byId
                  && (var next := Renamed(ix.byId[id], name, aliases);
                      Allowed(next) && NoClash(ix.byId, next, Some(id))))
  {
    var id := Trim(rawId);
    if id in ix.byId {
      var next := Renamed(ix.byId[id], name, aliases);
      FirstReservedIff(DescriptorRoots(next));
      NotTakenIff(ix, next, Some(id));
    }
  }

  lemma RegisterKeeps(ix: Index, offered: Descriptor)
    requires IndexOk(ix)
    ensures IndexOk(RegisterTx(ix, offered))
  {
    if RegisterError(ix, offered).None? {
      var d := Stored(offered);
      RegistersIff(ix, offered);
      FirstTakenIff(DescriptorRoots(d), ix.rootIds, None);
      ClaimAgrees(ix.byId, ix.rootIds, d.id, d);
    }
  }

  lemma RootsAreItsOwn(byId: map<string, Descriptor>, rootIds: map<string, string>, id: string)
    requires Agrees(byId, rootIds) && id in byId
    ensures forall r :: r in rootIds && rootIds[r] == id ==> r in DescriptorRoots(byId[id])
  {
    hide DescriptorRoots;
  }

  lemma MoveAgrees(byId: map<string, Descriptor>, rootIds: map<string, string>, id: string, next: Descriptor)
    requires Agrees(byId, rootIds) && id in byId
    requires forall r :: r in DescriptorRoots(next) && r in rootIds ==> rootIds[r] == id
    ensures Agrees(byId[id := next],
                   Claimed(Released(rootIds, DescriptorRoots(byId[id]), id), DescriptorRoots(next), id))
  {
    hide DescriptorRoots, Agrees;
    ReleaseAgrees(byId, rootIds, id);
    RootsAreItsOwn(byId, rootIds, id);
    var rest := Released(rootIds, DescriptorRoots(byId[id]), id);
    assert forall r :: r in DescriptorRoots(next) ==> r !in rest;
    ClaimAgrees(byId - {id}, rest, id, next);
    assert (byId - {id})[id := next] == byId[id := next];
  }

  lemma UpdateKeeps(ix: Index, rawId: string, name: string, aliases: seq<string>)
    requires IndexOk(ix)
    ensures IndexOk(UpdateTx(ix, rawId, name, aliases))
  {
    var id := Trim(rawId);
    if UpdateError(ix, rawId, name, aliases).None? {
      var next := Renamed(ix.byId[id], name, aliases);
      UpdatesIff(ix, rawId, name, aliases);
      FirstTakenIff(DescriptorRoots(next), ix.rootIds, Some(id));
      MoveAgrees(ix.byId, ix.rootIds, id, next);
    }
  }

  /** Every sequence of calls keeps the index in agreement with the stored commands. */
  lemma {:induction false} RunKeepsIndex(ix: Index, ops: seq<Op>)
    requires IndexOk(ix)
    ensures IndexOk(Run(ix, ops))
  {
    if ops != [] {
      var before := Run(ix, ops[..|ops| - 1]);
      RunKeepsIndex(ix, ops[..|ops| - 1]);
      match ops[|ops| - 1]
      case Register(offered) => RegisterKeeps(before, offered);
      case Update(rawId, name, aliases) => UpdateKeeps(before, rawId, name, aliases);
      case Unregister(pluginId) => WithoutAgrees(before, OwnedBy(before, pluginId));
    }
  }

  // ---- what a caller sees ----

  /** A lookup finds a command exactly when it is stored and answers to that root. */
  lemma FindIff(ix: Index, text: string, d: Descriptor)
    requires IndexOk(ix)
    ensures Find(ix, text) == Some(d)
            <==> d.id in ix.byId && ix.byId[d.id] == d && NormalizeRoot(text) in DescriptorRoots(d)
  {
    var r := NormalizeRoot(text);
    assert (r in ix.rootIds && ix.rootIds[r] == d.id) <==> (d.id in ix.byId && r in DescriptorRoots(ix.byId[d.id]));
    if r in ix.rootIds {
      assert ix.rootIds[r] in ix.byId;
    }
  }

  /** Two commands never share a root. */
  lemma RootsAreDisjoint(ix: Index, a: string, b: string, root: string)
    requires IndexOk(ix) && a in ix.byId && b in ix.byId
    requires root in DescriptorRoots(ix.byId[a]) && root in DescriptorRoots(ix.byId[b])
    ensures a == b
  {
    assert root in ix.rootIds && ix.rootIds[root] == a;
    assert root in ix.rootIds && ix.rootIds[root] == b;
  }

  predicate Lowercase(s: string)
  {
    s != "" && forall i :: 0 <= i < |s| ==> 'a' <= s[i] <= 'z'
  }

  lemma ReservedIsLowercase(root: string)
    requires root in RESERVED
    ensures Lowercase(root)
  {}

  lemma LowercaseIsNormal(root: string)
    requires Lowercase(root)
    ensures NormalizeRoot(root) == root
  {
    assert Normal(root);
    NormalizeFixedIff(root);
  }

  /** After any sequence of calls on a new registry, what a user types for a reserved root
      never reaches a plugin. */
  lemma ReservedRootsStayBuiltin(ops: seq<Op>, text: string, d: Descriptor)
    requires NormalizeRoot(text) in RESERVED
    requires Find(Run(Index(map[], map[]), ops), text) == Some(d)
    ensures !d.plugin
  {
    var ix := Run(Index(map[], map[]), ops);
    RunKeepsIndex(Index(map[], map[]), ops);
    FindIff(ix, text, d);
    ReservedIsLowercase(NormalizeRoot(text));
    LowercaseIsNormal(NormalizeRoot(text));
  }

  /** Registration adds the new command's roots and changes no other lookup. */
  lemma RegisterChangesOnlyItsRoots(ix: Index, offered: Descriptor, text: string)
    requires IndexOk(ix) && RegisterError(ix, offered).None?
    ensures Find(RegisterTx(ix, offered), text)
            == if NormalizeRoot(text) in DescriptorRoots(Stored(offered)) then Some(Stored(offered)) else Find(ix, text)
  {
    var r, d := NormalizeRoot(text), Stored(offered);
    if r in ix.rootIds {
      assert ix.rootIds[r] in ix.byId;
    }
    RegistersIff(ix, offered);
  }

  lemma MovedRoot(ix: Index, id: string, next: Descriptor, root: string)
    requires Agrees(ix.byId, ix.rootIds) && id in ix.byId
    ensures var after := Index(ix.byId[id := next],
                               Claimed(Released(ix.rootIds, DescriptorRoots(ix.byId[id]), id),
                                       DescriptorRoots(next), id));
            Resolve(after, root)
            == if root in DescriptorRoots(next) then Some(next)
               else if root in DescriptorRoots(ix.byId[id]) then None
               else Resolve(ix, root)
  {
    if root in ix.rootIds {
      assert ix.rootIds[root] in ix.byId;
    }
  }

  /** A change of roots moves exactly the old and the new roots of that command. */
  lemma UpdateChangesOnlyItsRoots(ix: Index, rawId: string, name: string, aliases: seq<string>, text: string)
    requires IndexOk(ix) && UpdateError(ix, rawId, name, aliases).None?
    ensures var id := Trim(rawId);
            var next := Renamed(ix.byId[id], name, aliases);
            Find(UpdateTx(ix, rawId, name, aliases), text)
            == if NormalizeRoot(text) in DescriptorRoots(next) then Some(next)
               else if NormalizeRoot(text) in DescriptorRoots(ix.byId[id]) then None
               else Find(ix, text)
  {
    var id := Trim(rawId);
    MovedRoot(ix, id, Renamed(ix.byId[id], name, aliases), NormalizeRoot(text));
  }

  // ---- what a command answers to, said of the texts alone ----

  /** What a user may type for a command with this name and these aliases. */
  predicate Answers(name: string, aliases: seq<string>, text: string)
  {
    NormalizeRoot(text) != ""
    && (NormalizeRoot(text) == NormalizeRoot(name) || exists alias :: alias in aliases && NormalizeRoot(alias) == NormalizeRoot(text))
  }

  lemma RootsAnswer(d: Descriptor, text: string)
    ensures NormalizeRoot(text) in DescriptorRoots(d) <==> Answers(d.name, d.aliases, text)
  {
    var names := [d.name] + d.aliases;
    RootsOfExactly(names, NormalizeRoot(text));
    assert d.name in names && forall alias :: alias in d.aliases ==> alias in names;
    if NormalizeRoot(text) in RootsOf(names) {
      var name :| name in names && NormalizeRoot(name) == NormalizeRoot(text);
      assert name == d.name || name in d.aliases;
    }
  }

  /** After a successful registration the command is stored under its trimmed id and normalised
      name, with everything else as offered, next to the commands that were there; and it is what
      one finds for exactly the texts that its name or an alias answers to. */
  lemma RegisteredAnswers(ix: Index, offered: Descriptor, text: string)
    requires IndexOk(ix) && RegisterError(ix, offered).None?
    ensures var d := Descriptor(Trim(offered.id), NormalizeRoot(offered.name), offered.aliases, offered.plugin, offered.pluginId);
            var after := RegisterTx(ix, offered);
            && d.id !in ix.byId && after.byId == ix.byId[d.id := d]
            && Find(after, text) == if Answers(d.name, d.aliases, text) then Some(d) else Find(ix, text)
  {
    RegistersIff(ix, offered);
    RootsAnswer(Stored(offered), text);
    RegisterChangesOnlyItsRoots(ix, offered, text);
  }

  /** After a successful change of roots the command has the given aliases and the normalised new
      name, or its old name if that is empty, and is otherwise as before; it is what one finds for
      exactly the texts those answer to, its former texts find nothing, and all others are as before. */
  lemma UpdatedAnswers(ix: Index, rawId: string, name: string, aliases: seq<string>, text: string)
    requires IndexOk(ix) && UpdateError(ix, rawId, name, aliases).None?
    ensures var id := Trim(rawId);
            && id in ix.byId
            && var was := ix.byId[id];
               var d := Descriptor(was.id, if NormalizeRoot(name) != "" then NormalizeRoot(name) else was.name,
                                   aliases, was.plugin, was.pluginId);
               var after := UpdateTx(ix, rawId, name, aliases);
               && after.byId == ix.byId[id := d]
               && (Find(after, text) == Some(d) <==> Answers(d.name, aliases, text))
               && (!Answers(d.name, aliases, text) ==>
                     Find(after, text) == if Answers(was.name, was.aliases, text) then None else Find(ix, text))
  {
    var id := Trim(rawId);
    UpdatesIff(ix, rawId, name, aliases);
    var was := ix.byId[id];
    var next := Renamed(was, name, aliases);
    RootsAnswer(next, text);
    RootsAnswer(was, text);
    UpdateChangesOnlyItsRoots(ix, rawId, name, aliases, text);
    if Find(ix, text) == Some(next) {
      FindIff(ix, text, next);
    }
  }

  /** Unloading a plugin removes exactly the commands that name it, and leaves every other lookup. */
  lemma UnloadedIsGone(ix: Index, pluginId: string, text: string)
    requires IndexOk(ix)
    ensures var after := UnregisterTx(ix, pluginId);
            && (forall id :: id in after.byId <==>
                  id in ix.byId && !(ix.byId[id].plugin && Trim(pluginId) != "" && Trim(ix.byId[id].pluginId) == Trim(pluginId)))
            && (forall id :: id in after.byId ==> after.byId[id] == ix.byId[id])
            && Find(after, text)
               == match Find(ix, text)
                  case None => None
                  case Some(d) =>
                    if d.plugin && Trim(pluginId) != "" && Trim(d.pluginId) == Trim(pluginId) then None else Some(d)
  {
    var r := NormalizeRoot(text);
    if r in ix.rootIds {
      assert ix.rootIds[r] in ix.byId && r in DescriptorRoots(ix.byId[ix.rootIds[r]]);
    }
  }

  /** Why a registration is refused: the first of five tests that fails.  A plugin's root is taken
      for reserved when its normal form is, once normalised again. */
  lemma RefusalIsFirstFault(ix: Index, offered: Descriptor)
    requires IndexOk(ix)
    ensures var (id, name, error) := (Trim(offered.id), NormalizeRoot(offered.name), RegisterError(ix, offered));
            var reserved := offered.plugin && exists text :: NormalizeRoot(NormalizeRoot(text)) in RESERVED
                                                             && Answers(name, offered.aliases, text);
            var d := Descriptor(id, name, offered.aliases, offered.plugin, offered.pluginId);
            && (error == Some(IdRequired) <==> id == "")
            && (error == Some(NameRequired) <==> id != "" && name == "")
            && (error.Some? && error.value.Reserved? <==> id != "" && name != "" && reserved)
            && (error == Some(IdTaken(id)) <==> id != "" && name != "" && !reserved && id in ix.byId)
            && (error.Some? && error.value.RootTaken? ==>
                  && error.value.root in DescriptorRoots(d) && error.value.owner in ix.byId
                  && error.value.root in DescriptorRoots(ix.byId[error.value.owner]))
            && (error.Some? ==> error.value.IdRequired? || error.value.NameRequired? || error.value.Reserved?
                                || error.value == IdTaken(id) || error.value.RootTaken?)
  {
    var d := Stored(offered);
    ReservedRootIff(d);
    var taken := FirstTaken(DescriptorRoots(d), ix.rootIds, None);
    if taken.Some? {
      FirstTakenIsListed(DescriptorRoots(d), ix.rootIds, None);
      assert ix.rootIds[taken.value] in ix.byId;
    }
    hide NormalizeRoot, DescriptorRoots, FirstReserved, FirstTaken, Trim;
  }

  lemma {:induction false} FirstTakenIsListed(roots: seq<string>, rootIds: map<string, string>, except: Option<string>)
    ensures var taken := FirstTaken(roots, rootIds, except); taken.Some? ==> taken.value in roots
  {
    if roots != [] {
      FirstTakenIsListed(roots[1..], rootIds, except);
    }
  }

  lemma ReservedRootIff(d: Descriptor)
    ensures FirstReserved(DescriptorRoots(d)).Some?
            <==> exists text :: NormalizeRoot(NormalizeRoot(text)) in RESERVED && Answers(d.name, d.aliases, text)
  {
    var names := [d.name] + d.aliases;
    FirstReservedIff(DescriptorRoots(d));
    if text :| NormalizeRoot(NormalizeRoot(text)) in RESERVED && Answers(d.name, d.aliases, text) {
      RootsAnswer(d, text);
      assert IsReservedRoot(NormalizeRoot(text));
    }
    if r :| r in DescriptorRoots(d) && IsReservedRoot(r) {
      RootsOfExactly(names, r);
      var source :| source in names && NormalizeRoot(source) == r;
      RootsAnswer(d, source);
    }
  }

  /** The name a command was registered under does not always find it: the stored name is
      normalised once and its root twice.  It finds the command exactly when the normalised
      name is a fixed point of normalisation, or an alias happens to give it. */
  lemma NameIsFoundIff(ix: Index, offered: Descriptor)
    requires IndexOk(ix) && RegisterError(ix, offered).None?
    ensures Find(RegisterTx(ix, offered), offered.name) == Some(Stored(offered))
            <==> Normal(NormalizeRoot(offered.name))
                 || exists alias :: alias in offered.aliases && NormalizeRoot(alias) == NormalizeRoot(offered.name)
  {
    var d := Stored(offered);
    var name := NormalizeRoot(offered.name);
    RegisterChangesOnlyItsRoots(ix, offered, offered.name);
    RootsOfExactly([d.name] + d.aliases, name);
    NormalizeFixedIff(name);
    if name in DescriptorRoots(d) {
      var source :| source in [d.name] + d.aliases && NormalizeRoot(source) == name;
      assert source == d.name || source in d.aliases;
    } else {
      assert forall alias :: alias in offered.aliases ==> alias in [d.name] + d.aliases;
      assert d.name in [d.name] + d.aliases;
      if Find(ix, offered.name) == Some(d) {
        FindIff(ix, offered.name, d);
        RegistersIff(ix, offered);
      }
    }
  }

  // ---- unloading a plugin ----

  /** A call a plugin makes for itself: registering its own command, or renaming one. */
  predicate ByPlugin(ix: Index, op: Op, pluginId: string)
  {
    match op
    case Register(offered) => BelongsTo(offered, pluginId)
    case Update(rawId, _, _) => Trim(rawId) in ix.byId ==> BelongsTo(ix.byId[Trim(rawId)], pluginId)
    case Unregister(other) => Trim(other) == Trim(pluginId)
  }

  predicate AllByPlugin(ix: Index, ops: seq<Op>, pluginId: string)
  {
    ops == [] || (AllByPlugin(ix, ops[..|ops| - 1], pluginId)
                  && ByPlugin(Run(ix, ops[..|ops| - 1]), ops[|ops| - 1], pluginId))
  }

  lemma SameMaps<K, V>(a: map<K, V>, b: map<K, V>)
    requires forall k :: k in a ==> k in b && b[k] == a[k]
    requires forall k :: k in b ==> k in a
    ensures a == b
  {}

  lemma OwnerIsFixed(byId: map<string, Descriptor>, a: map<string, string>, b: map<string, string>, r: string)
    requires Agrees(byId, a) && Agrees(byId, b) && r in a
    ensures r in b && b[r] == a[r]
  {
    hide DescriptorRoots;
    assert a[r] in byId && r in DescriptorRoots(byId[a[r]]);
  }

  lemma SameWhenAgreeing(byId: map<string, Descriptor>, a: map<string, string>, b: map<string, string>)
    requires Agrees(byId, a) && Agrees(byId, b)
    ensures a == b
  {
    assert (forall r :: r in a ==> r in b && b[r] == a[r]) && (forall r :: r in b ==> r in a) by {
      forall r | r in a ensures r in b && b[r] == a[r] {
        OwnerIsFixed(byId, a, b, r);
      }
      forall r | r in b ensures r in a {
        OwnerIsFixed(byId, b, a, r);
      }
    }
    SameMaps(a, b);
  }

  lemma PluginEntryIsDropped(byId: map<string, Descriptor>, a: map<string, string>, b: map<string, string>,
                             id: string, d: Descriptor, pluginId: string)
    requires BelongsTo(d, pluginId) && (id in byId ==> BelongsTo(byId[id], pluginId))
    ensures UnregisterTx(Index(byId[id := d], a), pluginId).byId == UnregisterTx(Index(byId, b), pluginId).byId
  {}

  lemma StepLeavesOthers(ix: Index, op: Op, pluginId: string)
    requires IndexOk(ix) && ByPlugin(ix, op, pluginId)
    ensures UnregisterTx(Step(ix, op), pluginId).byId == UnregisterTx(ix, pluginId).byId
  {
    var after := Step(ix, op);
    match op
    case Register(offered) =>
      var d := Stored(offered);
      if RegisterError(ix, offered).None? {
        PluginEntryIsDropped(ix.byId, after.rootIds, ix.rootIds, d.id, d, pluginId);
      }
    case Update(rawId, name, aliases) =>
      var id := Trim(rawId);
      if UpdateError(ix, rawId, name, aliases).None? {
        var next := Renamed(ix.byId[id], name, aliases);
        PluginEntryIsDropped(ix.byId, after.rootIds, ix.rootIds, id, next, pluginId);
      }
    case Unregister(other) =>
      assert OwnedBy(ix, other) == OwnedBy(ix, pluginId);
      assert OwnedBy(after, pluginId) == {};
  }

  /** Unloading a plugin erases whatever it did for itself: the registry is exactly what it
      would be had the plugin been unloaded before any of those calls. */
  lemma {:induction false} UnloadErasesPlugin(ix: Index, ops: seq<Op>, pluginId: string)
    requires IndexOk(ix) && AllByPlugin(ix, ops, pluginId)
    ensures UnregisterTx(Run(ix, ops), pluginId) == UnregisterTx(ix, pluginId)
  {
    if ops != [] {
      var first, op := ops[..|ops| - 1], ops[|ops| - 1];
      var before := Run(ix, first);
      RunKeepsIndex(ix, first);
      RunKeepsIndex(ix, ops);
      UnloadErasesPlugin(ix, first, pluginId);
      StepLeavesOthers(before, op, pluginId);
      WithoutAgrees(before, OwnedBy(before, pluginId));
      WithoutAgrees(Run(ix, ops), OwnedBy(Run(ix, ops), pluginId));
      SameWhenAgreeing(UnregisterTx(ix, pluginId).byId,
                       UnregisterTx(Run(ix, ops), pluginId).rootIds, UnregisterTx(before, pluginId).rootIds);
    }
  }

  // ---- a name that does not find its command ----

  lemma SlashA()
    ensures NormalizeRoot("//a") == "/a" && NormalizeRoot("/a") == "a"
  {
    TrimFixed("//a");
    TrimFixed("/a");
    LowerFixed("/a");
    LowerFixed("a");
  }

  lemma OneRoot(name: string)
    ensures RootsOf([name]) == if NormalizeRoot(name) == "" then [] else [NormalizeRoot(name)]
  {
    assert [name][..0] == [];
    assert RootsOf([]) == [];
  }

  /** A command registered as "//a" is found as "/a" and not as "//a". */
  lemma DoubleSlashIsNotFound()
    ensures var d := Descriptor("x", "//a", [], false, "");
            var ix := Index(map[], map[]);
            && RegisterError(ix, d).None?
            && Find(RegisterTx(ix, d), d.name) == None
            && Find(RegisterTx(ix, d), "/a") == Some(Stored(d))
  {
    var d := Descriptor("x", "//a", [], false, "");
    var ix := Index(map[], map[]);
    SlashA();
    TrimFixed("x");
    OneRoot("/a");
    assert Stored(d) == Descriptor("x", "/a", [], false, "");
    assert [Stored(d).name] + Stored(d).aliases == ["/a"];
    assert DescriptorRoots(Stored(d)) == ["a"];
    hide NormalizeRoot, DescriptorRoots, Stored;
    RegistersIff(ix, d);
    RegisterChangesOnlyItsRoots(ix, d, "//a");
    RegisterChangesOnlyItsRoots(ix, d, "/a");
  }
}
