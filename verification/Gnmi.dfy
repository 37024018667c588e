/** The gNMI server: what a Get with a data type leaves of the tree, and in which order a Set
    request is executed. */
module Gnmi {
  import opened Wrappers
  import opened Connections

  // ---------------------------------------------------------------- names

  /** The part of a qualified name after its last colon. */
  function Normalized(name: string): string {
    if name == "" then ""
    else if name[|name| - 1] == ':' then ""
    else Normalized(name[..|name| - 1]) + [name[|name| - 1]]
  }

  lemma OneMoreChar(name: string, k: nat)
    requires k < |name|
    ensures Normalized(name[..k + 1]) == if name[k] == ':' then "" else Normalized(name[..k]) + [name[k]]
  {
    assert name[..k + 1][..k] == name[..k];
  }

  /** The tail of a name that holds no colon and has one before it, if anything, is the part after
      the last colon -- and the only such tail. */
  lemma {:induction false} NormalizedIsTail(name: string, k: nat)
    requires k <= |name| && (k == 0 || name[k - 1] == ':')
    requires forall i | k <= i < |name| :: name[i] != ':'
    ensures Normalized(name) == name[k..]
    decreases |name|
  {
    if |name| == k {
      if k > 0 { OneMoreChar(name, k - 1); }
      assert name[..|name|] == name;
    } else {
      var m := |name| - 1;
      NormalizedIsTail(name[..m], k);
      OneMoreChar(name, m);
      assert name[..m + 1] == name;
      assert name[k..] == name[..m][k..] + [name[m]];
    }
  }

  /** strings.LastIndex and the slice behind it. */
  method Normalize(name: string) returns (normalized: string)
    ensures normalized == Normalized(name)
  {
    var colon := |name| - 1;
    while colon >= 0 && name[colon] != ':'
      invariant -1 <= colon < |name|
      invariant forall i | colon < i < |name| :: name[i] != ':'
    {
      colon := colon - 1;
    }
    NormalizedIsTail(name, colon + 1);
    normalized := name[colon + 1..];
  }

  // ---------------------------------------------------------------- Get

  datatype Json = Leaf(text: string) | Array(items: seq<Json>) | Object(fields: map<string, Json>)

  /** The value without the excluded name. */
  function Filter(v: Json, excluded: string): Json {
    match v
    case Leaf(_) => v
    case Array(items) => Array(seq(|items|, i requires 0 <= i < |items| => Filter(items[i], excluded)))
    case Object(fields) =>
      Object(map key | key in fields && Normalized(key) != excluded :: Filter(fields[key], excluded))
  }

  /** No field of that name at any depth. */
  predicate Clean(v: Json, excluded: string) {
    match v
    case Leaf(_) => true
    case Array(items) => forall i | 0 <= i < |items| :: Clean(items[i], excluded)
    case Object(fields) => forall key | key in fields :: Normalized(key) != excluded && Clean(fields[key], excluded)
  }

  lemma {:induction false} FilterCleans(v: Json, excluded: string)
    ensures Clean(Filter(v, excluded), excluded)
  {
    match v
    case Leaf(_) =>
    case Array(items) =>
      forall i | 0 <= i < |items| ensures Clean(Filter(items[i], excluded), excluded) {
        FilterCleans(items[i], excluded);
      }
    case Object(fields) =>
      forall key | key in fields ensures Clean(Filter(fields[key], excluded), excluded) {
        FilterCleans(fields[key], excluded);
      }
  }

  /** A clean value is left alone -- so filtering twice is filtering once. */
  lemma {:induction false} CleanStays(v: Json, excluded: string)
    requires Clean(v, excluded)
    ensures Filter(v, excluded) == v
  {
    match v
    case Leaf(_) =>
    case Array(items) =>
      forall i | 0 <= i < |items| ensures Filter(items[i], excluded) == items[i] { CleanStays(items[i], excluded); }
      assert Filter(v, excluded).items == items;
    case Object(fields) =>
      forall key | key in fields ensures Filter(fields[key], excluded) == fields[key] {
        CleanStays(fields[key], excluded);
      }
      assert Filter(v, excluded).fields == fields;
  }

  lemma {:induction false} FilterIdempotent(v: Json, excluded: string)
    ensures Filter(Filter(v, excluded), excluded) == Filter(v, excluded)
  {
    FilterCleans(v, excluded);
    CleanStays(Filter(v, excluded), excluded);
  }

  /** Walk along field names; None is an unsupported path. */
  function Walk(v: Json, names: seq<string>): Option<Json> {
    if names == [] then Some(v)
    else if v.Object? && names[0] in v.fields then Walk(v.fields[names[0]], names[1..])
    else None
  }

  method Traverse(value: Json, names: seq<string>) returns (found: Option<Json>)
    ensures found == Walk(value, names)
  {
    var current := value;
    for i := 0 to |names|
      invariant Walk(value, names) == Walk(current, names[i..])
    {
      if !current.Object? || names[i] !in current.fields {
        return None;
      }
      assert names[i..][1..] == names[i + 1..];
      current := current.fields[names[i]];
    }
    return Some(current);
  }

  predicate Avoids(names: seq<string>, excluded: string) {
    forall k | 0 <= k < |names| :: Normalized(names[k]) != excluded
  }

  function FilterFound(found: Option<Json>, excluded: string): Option<Json> {
    match found
    case None => None
    case Some(v) => Some(Filter(v, excluded))
  }

  /** Along every path: filtering keeps exactly the paths that avoid the excluded name, and what
      they lead to is the filtered original. */
  lemma {:induction false} WalkFiltered(v: Json, names: seq<string>, excluded: string)
    ensures Walk(Filter(v, excluded), names)
            == if Avoids(names, excluded) then FilterFound(Walk(v, names), excluded) else None
    decreases |names|
  {
    if names != [] {
      assert Avoids(names, excluded) <==> Normalized(names[0]) != excluded && Avoids(names[1..], excluded);
      if v.Object? && names[0] in v.fields { WalkFiltered(v.fields[names[0]], names[1..], excluded); }
    }
  }

  /** Selecting and filtering commute exactly along the paths that avoid the excluded name or lead
      nowhere: a Get of config below .../state answers with the state container, which filtering
      first would have removed. */
  lemma {:induction false} CommutesIff(v: Json, names: seq<string>, excluded: string)
    ensures Walk(Filter(v, excluded), names) == FilterFound(Walk(v, names), excluded)
            <==> Avoids(names, excluded) || Walk(v, names).None?
  {
    WalkFiltered(v, names, excluded);
  }

  /** An input on which they do not commute: a Get of config data under .../state. */
  lemma StateUnderConfig()
    ensures var v := Object(map["config" := Leaf("c"), "state" := Object(map["status" := Leaf("ready")])]);
            && Walk(Filter(v, "state"), ["state"]) == None
            && FilterFound(Walk(v, ["state"]), "state") == Some(Object(map["status" := Leaf("ready")]))
  {
    var inner := Object(map["status" := Leaf("ready")]);
    var v := Object(map["config" := Leaf("c"), "state" := inner]);
    assert Normalized("state") == "state" && Normalized("status") == "status" by {
      assert "state"[..4] == "stat" && "status"[..5] == "statu";
      NoColon("state");
      NoColon("status");
    }
    assert Walk(v, ["state"]) == Walk(inner, []);
    assert Clean(inner, "state");
    CleanStays(inner, "state");
    WalkFiltered(v, ["state"], "state");
  }

  lemma {:induction false} NoColon(name: string)
    requires ':' !in name
    ensures Normalized(name) == name
  {
    if name != "" {
      NoColon(name[..|name| - 1]);
      assert name == name[..|name| - 1] + [name[|name| - 1]];
    }
  }

  // ---------------------------------------------------------------- entries of a list

  predicate HasKey(v: Json, key: string, value: string) {
    v.Object? && key in v.fields && v.fields[key] == Leaf(value)
  }

  /** The first entry with a key value, and a path below it. */
  function Entry(items: seq<Json>, key: string, value: string, names: seq<string>): Option<Json> {
    if items == [] then None
    else if HasKey(items[0], key, value) then Walk(items[0], names)
    else Entry(items[1..], key, value, names)
  }

  method SelectEntry(items: seq<Json>, key: string, value: string, names: seq<string>) returns (found: Option<Json>)
    ensures found == Entry(items, key, value, names)
  {
    for i := 0 to |items|
      invariant Entry(items, key, value, names) == Entry(items[i..], key, value, names)
    {
      if HasKey(items[i], key, value) {
        found := Traverse(items[i], names);
        return;
      }
      assert items[i..][1..] == items[i + 1..];
    }
    return None;
  }

  lemma KeyKept(v: Json, key: string, value: string, excluded: string)
    requires Normalized(key) != excluded
    ensures HasKey(Filter(v, excluded), key, value) <==> HasKey(v, key, value)
  {
    if v.Object? && key in v.fields {
      var field := v.fields[key];
      assert Filter(field, excluded) == Leaf(value) <==> field == Leaf(value);
    }
  }

  /** A keyed lookup in a filtered list finds the filtered entry, as long as the key itself is not
      what is excluded. */
  lemma {:induction false} EntryFiltered(items: seq<Json>, key: string, value: string, names: seq<string>,
                                         excluded: string)
    requires Normalized(key) != excluded
    ensures Entry(Filter(Array(items), excluded).items, key, value, names)
            == if Avoids(names, excluded) then FilterFound(Entry(items, key, value, names), excluded) else None
    decreases |items|
  {
    var filtered := Filter(Array(items), excluded).items;
    if items != [] {
      assert filtered[0] == Filter(items[0], excluded);
      assert filtered[1..] == Filter(Array(items[1..]), excluded).items;
      KeyKept(items[0], key, value, excluded);
      WalkFiltered(items[0], names, excluded);
      EntryFiltered(items[1..], key, value, names, excluded);
    }
  }

  // ---------------------------------------------------------------- Set

  datatype Element = Element(name: string, keys: map<string, string>)

  /** A decoded Set value: not JSON, one connection, a connection list, or other fields. */
  datatype Body =
    | NotJson
    | OneConnection(name: string, near: string, far: string, bidirectional: bool)
    | ConnectionList(items: seq<Connection>)
    | OtherFields

  datatype Replacement = Replacement(path: seq<Element>, body: Body)

  datatype SetError = Unsupported | InvalidValue | Nothing

  function Names(path: seq<Element>): seq<string> {
    seq(|path|, i requires 0 <= i < |path| => Normalized(path[i].name))
  }

  function Key(element: Element, key: string): string {
    if key in element.keys then element.keys[key] else ""
  }

  /** The connection-name key of the first port-connection element. */
  function ConnectionKey(path: seq<Element>): string {
    if path == [] then ""
    else if Normalized(path[0].name) == "port-connection" then Key(path[0], "connection-name")
    else ConnectionKey(path[1..])
  }

  method NormalizedNames(path: seq<Element>) returns (names: seq<string>)
    ensures names == Names(path)
  {
    names := [];
    for i := 0 to |path|
      invariant names == Names(path)[..i]
    {
      var name := Normalize(path[i].name);
      names := names + [name];
    }
  }

  method ConnectionNameFromPath(path: seq<Element>) returns (name: string)
    ensures name == ConnectionKey(path)
  {
    for i := 0 to |path|
      invariant ConnectionKey(path) == ConnectionKey(path[i..])
    {
      var normalized := Normalize(path[i].name);
      if normalized == "port-connection" {
        return Key(path[i], "connection-name");
      }
      assert path[i..][1..] == path[i + 1..];
    }
    return "";
  }

  const ROOT := ["optical-switch-connections"]
  const ENTRY := ["optical-switch-connections", "port-connection"]

  function DeleteOperation(path: seq<Element>): Result<Edit, SetError> {
    if Names(path) == ENTRY && ConnectionKey(path) != "" then Success(DeleteEdit(ConnectionKey(path)))
    else Failure(Unsupported)
  }

  function ReplaceOperation(n: nat, r: Replacement): Result<Edit, SetError> {
    if r.body.NotJson? then Failure(InvalidValue)
    else if Names(r.path) == ROOT then
      if !r.body.ConnectionList? then Failure(Unsupported)
      else if ValidItems(n, r.body.items) then Success(ReplaceAll(Some(ConnectionSet(n, r.body.items))))
      else Failure(InvalidValue)
    else if Names(r.path) == ENTRY then
      var name := ConnectionKey(r.path);
      if name == "" then Failure(InvalidValue)
      else if !r.body.OneConnection? then Failure(Unsupported)
      else if r.body.name != "" && r.body.name != name then Failure(InvalidValue)
      else Success(ReplaceEdit(Connection(name, r.body.near, r.body.far, r.body.bidirectional)))
    else Failure(Unsupported)
  }

  method BuildReplace(n: nat, r: Replacement) returns (operation: Result<Edit, SetError>)
    ensures operation == ReplaceOperation(n, r)
  {
    var names := NormalizedNames(r.path);
    if r.body.NotJson? {
      return Failure(InvalidValue);
    }
    if names == ROOT {
      if !r.body.ConnectionList? {
        return Failure(Unsupported);
      }
      var accepted := NewConnectionSet(n, r.body.items);
      if accepted.Failure? {
        return Failure(InvalidValue);
      }
      return Success(ReplaceAll(Some(accepted.value)));
    }
    if names != ENTRY {
      return Failure(Unsupported);
    }
    var name := ConnectionNameFromPath(r.path);
    if name == "" {
      return Failure(InvalidValue);
    }
    if !r.body.OneConnection? {
      return Failure(Unsupported);
    }
    if r.body.name != "" && r.body.name != name {
      return Failure(InvalidValue);
    }
    return Success(ReplaceEdit(Connection(name, r.body.near, r.body.far, r.body.bidirectional)));
  }

  /** All deletes in request order, then all replacements in request order. */
  predicate InOrder(n: nat, deletions: seq<seq<Element>>, replacements: seq<Replacement>, operations: seq<Edit>) {
    && |operations| == |deletions| + |replacements|
    && (forall i | 0 <= i < |deletions| :: DeleteOperation(deletions[i]) == Success(operations[i]))
    && (forall i | 0 <= i < |replacements| ::
          ReplaceOperation(n, replacements[i]) == Success(operations[|deletions| + i]))
  }

  /** The whole request is refused if any part of it is. */
  method BuildOperations(n: nat, deletions: seq<seq<Element>>, replacements: seq<Replacement>)
    returns (r: Result<seq<Edit>, SetError>)
    ensures r.Success? ==> InOrder(n, deletions, replacements, r.value) && ValidEdits(n, r.value)
    ensures r.Failure? ==>
              || (deletions == [] && replacements == [])
              || (exists i :: 0 <= i < |deletions| && DeleteOperation(deletions[i]).Failure?)
              || (exists i :: 0 <= i < |replacements| && ReplaceOperation(n, replacements[i]).Failure?)
    ensures deletions == [] && replacements == [] ==> r == Failure(Nothing)
  {
    var operations: seq<Edit> := [];
    for i := 0 to |deletions|
      invariant InOrder(n, deletions[..i], [], operations)
    {
      var names := NormalizedNames(deletions[i]);
      var name := ConnectionNameFromPath(deletions[i]);
      if names != ENTRY || name == "" {
        assert DeleteOperation(deletions[i]).Failure?;
        return Failure(Unsupported);
      }
      operations := operations + [DeleteEdit(name)];
    }
    assert deletions[..|deletions|] == deletions;
    for i := 0 to |replacements|
      invariant InOrder(n, deletions, replacements[..i], operations)
    {
      var operation := BuildReplace(n, replacements[i]);
      if operation.Failure? {
        return Failure(operation.error);
      }
      operations := operations + [operation.value];
    }
    assert replacements[..|replacements|] == replacements;
    if operations == [] {
      return Failure(Nothing);
    }
    InOrderIsValid(n, deletions, replacements, operations);
    return Success(operations);
  }

  lemma InOrderIsValid(n: nat, deletions: seq<seq<Element>>, replacements: seq<Replacement>, operations: seq<Edit>)
    requires InOrder(n, deletions, replacements, operations)
    ensures ValidEdits(n, operations)
  {
    forall i | 0 <= i < |operations| ensures ValidEdit(n, operations[i]) {
      if i < |deletions| {
        assert DeleteOperation(deletions[i]) == Success(operations[i]);
      } else {
        var k := i - |deletions|;
        assert ReplaceOperation(n, replacements[k]) == Success(operations[|deletions| + k]);
      }
    }
  }

  /** One Set request can turn any valid set into any other, because its deletes come first: it
      deletes the old names and then puts in the new connections, even where both use the same
      ports. */
  lemma SetReachesAnySet(s: ConnectionSet, t: ConnectionSet, names: seq<string>, deletions: seq<seq<Element>>,
                         replacements: seq<Replacement>, operations: seq<Edit>)
    requires Valid(s) && Valid(t) && s.n == t.n && Connections.Names(s.items, names)
    requires InOrder(s.n, deletions, replacements, operations)
    requires |deletions| == |names| && |replacements| == |t.items|
    requires forall i | 0 <= i < |deletions| :: DeleteOperation(deletions[i]) == Success(DeleteEdit(names[i]))
    requires forall i | 0 <= i < |replacements| ::
               ReplaceOperation(s.n, replacements[i]) == Success(ReplaceEdit(t.items[i]))
    ensures ApplyEdits(s, operations) == Success(t)
  {
    var planned := Deletions(names) + Replacements(t.items);
    forall i | 0 <= i < |operations| ensures operations[i] == planned[i] {
      if i < |deletions| {
        assert DeleteOperation(deletions[i]) == Success(operations[i]);
      } else {
        var k := i - |deletions|;
        assert ReplaceOperation(s.n, replacements[k]) == Success(operations[|deletions| + k]);
      }
    }
    assert operations == planned;
    ReachAnySet(s, t, names);
  }

  // ---------------------------------------------------------------- such a request

  /** /optical-switch-connections/port-connection[connection-name=...] */
  function EntryPath(name: string): seq<Element> {
    [Element("optical-switch-connections", map[]), Element("port-connection", map["connection-name" := name])]
  }

  function DeletePaths(names: seq<string>): seq<seq<Element>> {
    seq(|names|, i requires 0 <= i < |names| => EntryPath(names[i]))
  }

  function EntryReplacement(c: Connection): Replacement {
    Replacement(EntryPath(c.name), OneConnection(c.name, c.near, c.far, c.bidirectional))
  }

  function EntryReplacements(items: seq<Connection>): seq<Replacement> {
    seq(|items|, i requires 0 <= i < |items| => EntryReplacement(items[i]))
  }

  lemma EntryPathReads(name: string)
    ensures Names(EntryPath(name)) == ENTRY && ConnectionKey(EntryPath(name)) == name
  {
    NoColon("optical-switch-connections");
    NoColon("port-connection");
    var path := EntryPath(name);
    assert path[1..] == [path[1]];
    assert Names(path) == [Normalized(path[0].name), Normalized(path[1].name)];
  }

  lemma EntryOperations(n: nat, c: Connection)
    requires c.name != ""
    ensures DeleteOperation(EntryPath(c.name)) == Success(DeleteEdit(c.name))
    ensures ReplaceOperation(n, EntryReplacement(c)) == Success(ReplaceEdit(c))
  {
    EntryPathReads(c.name);
    assert ENTRY != ROOT;
  }

  lemma DeletesByPath(s: ConnectionSet, names: seq<string>, i: nat)
    requires Valid(s) && Connections.Names(s.items, names) && i < |names|
    ensures DeleteOperation(DeletePaths(names)[i]) == Success(DeleteEdit(names[i]))
  {
    assert names[i] in names;
    var c :| c in s.items && c.name == names[i];
    EntryOperations(s.n, c);
  }

  lemma ReplacesByPath(t: ConnectionSet, i: nat)
    requires Valid(t) && i < |t.items|
    ensures ReplaceOperation(t.n, EntryReplacements(t.items)[i]) == Success(ReplaceEdit(t.items[i]))
  {
    EntryOperations(t.n, t.items[i]);
  }

  lemma PutInOrder(n: nat, deletions: seq<seq<Element>>, replacements: seq<Replacement>, first: seq<Edit>,
                   second: seq<Edit>)
    requires |first| == |deletions| && |second| == |replacements|
    requires forall i | 0 <= i < |deletions| :: DeleteOperation(deletions[i]) == Success(first[i])
    requires forall i | 0 <= i < |replacements| :: ReplaceOperation(n, replacements[i]) == Success(second[i])
    ensures InOrder(n, deletions, replacements, first + second)
  {
  }

  /** The request that deletes every connection of s by its path and then replaces every connection of
      t by its own: the server takes it, and it turns s into t. */
  lemma RequestReachesAnySet(s: ConnectionSet, t: ConnectionSet, names: seq<string>)
    requires Valid(s) && Valid(t) && s.n == t.n && Connections.Names(s.items, names)
    ensures var operations := Deletions(names) + Replacements(t.items);
            && InOrder(s.n, DeletePaths(names), EntryReplacements(t.items), operations)
            && ApplyEdits(s, operations) == Success(t)
  {
    forall i | 0 <= i < |names| ensures DeleteOperation(DeletePaths(names)[i]) == Success(Deletions(names)[i]) {
      DeletesByPath(s, names, i);
    }
    forall i | 0 <= i < |t.items|
      ensures ReplaceOperation(s.n, EntryReplacements(t.items)[i]) == Success(Replacements(t.items)[i])
    {
      ReplacesByPath(t, i);
    }
    PutInOrder(s.n, DeletePaths(names), EntryReplacements(t.items), Deletions(names), Replacements(t.items));
    ReachAnySet(s, t, names);
  }

  /** The server builds from a request only one list of operations, so this is what it executes. */
  lemma OperationsDetermined(n: nat, deletions: seq<seq<Element>>, replacements: seq<Replacement>,
                             first: seq<Edit>, second: seq<Edit>)
    requires InOrder(n, deletions, replacements, first) && InOrder(n, deletions, replacements, second)
    ensures first == second
  {
    forall i | 0 <= i < |first| ensures first[i] == second[i] {
      if i < |deletions| {
        assert DeleteOperation(deletions[i]) == Success(first[i]);
      } else {
        var k := i - |deletions|;
        assert ReplaceOperation(n, replacements[k]) == Success(first[|deletions| + k]);
        assert ReplaceOperation(n, replacements[k]) == Success(second[|deletions| + k]);
      }
    }
  }

  lemma AllSupported(n: nat, deletions: seq<seq<Element>>, replacements: seq<Replacement>, operations: seq<Edit>)
    requires InOrder(n, deletions, replacements, operations)
    ensures forall i | 0 <= i < |deletions| :: DeleteOperation(deletions[i]).Success?
    ensures forall i | 0 <= i < |replacements| :: ReplaceOperation(n, replacements[i]).Success?
  {
  }

  /** Running that request: unless there is nothing to do, its operations are built and turn s into t. */
  method SetRequest(s: ConnectionSet, t: ConnectionSet, names: seq<string>) returns (r: Result<seq<Edit>, SetError>)
    requires Valid(s) && Valid(t) && s.n == t.n && Connections.Names(s.items, names)
    ensures r.Success? <==> names != [] || t.items != []
    ensures r.Success? ==> ApplyEdits(s, r.value) == Success(t)
  {
    RequestReachesAnySet(s, t, names);
    ghost var operations := Deletions(names) + Replacements(t.items);
    AllSupported(s.n, DeletePaths(names), EntryReplacements(t.items), operations);
    r := BuildOperations(s.n, DeletePaths(names), EntryReplacements(t.items));
    if r.Success? {
      OperationsDetermined(s.n, DeletePaths(names), EntryReplacements(t.items), r.value, operations);
    }
  }

  // ---------------------------------------------------------------- replacing the root

  /** The replacement of /optical-switch-connections by this list. */
  function RootReplacement(items: seq<Connection>): Replacement {
    Replacement([Element("optical-switch-connections", map[])], ConnectionList(items))
  }

  lemma RootOperation(n: nat, items: seq<Connection>)
    ensures var r := ReplaceOperation(n, RootReplacement(items));
            if ValidItems(n, items) then r == Success(ReplaceAll(Some(ConnectionSet(n, items))))
            else r == Failure(InvalidValue)
  {
    NoColon("optical-switch-connections");
    var path := RootReplacement(items).path;
    assert Names(path) == [Normalized(path[0].name)];
  }

  /** A request whose only part replaces the root: it is refused exactly if the list is not a valid set,
      and otherwise turns every set into that one. */
  method SetRoot(s: ConnectionSet, items: seq<Connection>) returns (r: Result<seq<Edit>, SetError>)
    requires Valid(s)
    ensures r.Success? <==> ValidItems(s.n, items)
    ensures r.Success? ==> ApplyEdits(s, r.value) == Success(ConnectionSet(s.n, items))
  {
    RootOperation(s.n, items);
    r := BuildOperations(s.n, [], [RootReplacement(items)]);
    if r.Success? {
      assert ReplaceOperation(s.n, [RootReplacement(items)][0]) == Success(r.value[0]);
      ReplaceAllMeaning(s, [], r.value[0]);
      assert [] + [r.value[0]] == r.value;
    }
  }

  /** A body below an entry's path may leave out the name, or must give the same one. */
  lemma NameFromPath(n: nat, name: string, body: Body)
    requires name != "" && body.OneConnection?
    ensures ReplaceOperation(n, Replacement(EntryPath(name), body))
            == if body.name == "" || body.name == name
               then Success(ReplaceEdit(Connection(name, body.near, body.far, body.bidirectional)))
               else Failure(InvalidValue)
  {
    EntryPathReads(name);
    assert ENTRY != ROOT;
  }

  // ---------------------------------------------------------------- what is supported

  /** A path to the whole set, by the local name of its one element. */
  predicate IsRoot(path: seq<Element>) {
    |path| == 1 && Normalized(path[0].name) == "optical-switch-connections"
  }

  /** A path to the entry of this name, by the local names of its two elements and the key of the second. */
  predicate IsEntry(path: seq<Element>, name: string) {
    && |path| == 2 && Normalized(path[0].name) == "optical-switch-connections"
    && Normalized(path[1].name) == "port-connection"
    && "connection-name" in path[1].keys && path[1].keys["connection-name"] == name != ""
  }

  lemma SecondKey(path: seq<Element>)
    requires |path| == 2 && Normalized(path[0].name) == "optical-switch-connections"
    requires Normalized(path[1].name) == "port-connection"
    ensures ConnectionKey(path) == Key(path[1], "connection-name")
  {
    assert path[1..] == [path[1]];
    assert "optical-switch-connections"[0] != "port-connection"[0];
    assert ConnectionKey(path) == ConnectionKey(path[1..]);
  }

  lemma NamesMean(path: seq<Element>)
    ensures Names(path) == ROOT <==> IsRoot(path)
    ensures Names(path) == ENTRY && ConnectionKey(path) != "" <==> exists name :: IsEntry(path, name)
    ensures forall name :: IsEntry(path, name) ==> ConnectionKey(path) == name
  {
    if |path| == 1 { assert Names(path) == [Normalized(path[0].name)]; }
    if |path| == 2 {
      assert Names(path) == [Normalized(path[0].name), Normalized(path[1].name)];
      if Names(path) == ENTRY {
        assert Normalized(path[0].name) == ENTRY[0] && Normalized(path[1].name) == ENTRY[1];
        SecondKey(path);
        if ConnectionKey(path) != "" { assert IsEntry(path, ConnectionKey(path)); }
      }
    }
  }

  /** Deleting takes the path of an entry and nothing else. */
  lemma DeletesIff(path: seq<Element>)
    ensures DeleteOperation(path).Success? <==> exists name :: IsEntry(path, name)
    ensures forall name :: IsEntry(path, name) ==> DeleteOperation(path) == Success(DeleteEdit(name))
  {
    NamesMean(path);
  }

  /** Replacing takes the root with a valid list, or the path of an entry with one connection that has no
      other name, and nothing else. */
  lemma ReplacesIff(n: nat, path: seq<Element>, body: Body)
    ensures ReplaceOperation(n, Replacement(path, body)).Success?
            <==> || (IsRoot(path) && body.ConnectionList? && ValidItems(n, body.items))
                 || (body.OneConnection?
                     && exists name :: IsEntry(path, name) && (body.name == "" || body.name == name))
  {
    NamesMean(path);
    assert ROOT != ENTRY;
  }
}
