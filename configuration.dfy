/** The part of Microsoft.Extensions.Configuration the library reads: a tree
    of keyed nodes with optional string values, reached through sections that
    remember the key and the colon-separated path they were reached by. Keys
    compare case-insensitively. */
module Configuration {
  import opened Wrappers
  import opened Primitives

  /** A node as a configuration provider holds it: its key, its value (absent
      when the key only groups children), and its children in the order
      GetChildren yields them. */
  datatype Node = Node(key: string, value: Option<string>, children: seq<Node>)

  /** ConfigurationPath.Combine: the path of `key` below `path`. */
  function ChildPath(path: string, key: string): (r: string)
    ensures path == "" ==> r == key
    ensures path != "" ==> r == path + ":" + key
  {
    if path == "" then key else path + ":" + key
  }

  predicate SameKey(a: string, b: string) {
    Lower(a) == Lower(b)
  }

  /** The first child whose key equals `key` ignoring case. */
  function FindChild(children: seq<Node>, key: string): (r: Option<nat>)
    ensures r.Some? ==> r.value < |children| && SameKey(children[r.value].key, key)
    ensures r.Some? ==> forall j :: 0 <= j < r.value ==> !SameKey(children[j].key, key)
    ensures r.None? <==> forall j :: 0 <= j < |children| ==> !SameKey(children[j].key, key)
    decreases |children|
  {
    if children == [] then None
    else if SameKey(children[0].key, key) then Some(0)
    else
      match FindChild(children[1..], key)
      case None => None
      case Some(k) => Some(k + 1)
  }

  /** An IConfigurationSection: the key and path it was reached by, over the
      node stored at that path (an empty node when nothing is stored there).
      The root configuration is the section with the empty path. */
  datatype Section = Section(key: string, path: string, node: Node) {

    /** IConfigurationSection.Value. */
    function Value(): Option<string> {
      node.value
    }

    /** IConfiguration.GetSection: never null; the section of a missing key
        has no value and no children. */
    function GetSection(k: string): (s: Section)
      ensures s.key == k && s.path == ChildPath(path, k)
      ensures match FindChild(node.children, k)
              case Some(i) => s.node == node.children[i]
              case None => s.node == Node(k, None, [])
    {
      var child := match FindChild(node.children, k)
                   case Some(i) => node.children[i]
                   case None => Node(k, None, []);
      Section(k, ChildPath(path, k), child)
    }

    /** The indexer getter `conf[k]`: the value stored at `k`, if any. */
    function Item(k: string): Option<string> {
      GetSection(k).Value()
    }

    /** IConfiguration.GetChildren: one section per stored child, in order,
        each reached by its own key. */
    function GetChildren(): (r: seq<Section>)
      ensures |r| == |node.children|
      ensures forall i :: 0 <= i < |r| ==>
        r[i].node == node.children[i] && r[i].key == node.children[i].key
        && r[i].path == ChildPath(path, node.children[i].key)
    {
      seq(|node.children|, i requires 0 <= i < |node.children| =>
        Section(node.children[i].key, ChildPath(path, node.children[i].key), node.children[i]))
    }

    /** The Value setter. */
    function WithValue(v: Option<string>): (s: Section)
      ensures s.Value() == v
      ensures s.key == key && s.path == path && s.node.children == node.children
    {
      Section(key, path, node.(value := v))
    }

    /** The indexer setter `conf[k] = v`: the child stored at `k` takes the
        value `v`, or a new child is added when there is none. */
    function WithItem(k: string, v: Option<string>): (s: Section)
      ensures s.key == key && s.path == path && s.Value() == Value()
    {
      match FindChild(node.children, k)
      case Some(i) =>
        Section(key, path, node.(children := node.children[i := node.children[i].(value := v)]))
      case None =>
        Section(key, path, node.(children := node.children + [Node(k, v, [])]))
    }
  }

  /** Lookups of keys that differ only in case give the same value. */
  lemma ItemIgnoresCase(s: Section, k1: string, k2: string)
    requires SameKey(k1, k2)
    ensures s.Item(k1) == s.Item(k2)
  {
    FindChildIgnoresCase(s.node.children, k1, k2);
  }

  lemma {:induction false} FindChildIgnoresCase(children: seq<Node>, k1: string, k2: string)
    requires SameKey(k1, k2)
    ensures FindChild(children, k1) == FindChild(children, k2)
    decreases |children|
  {
    if children != [] {
      FindChildIgnoresCase(children[1..], k1, k2);
    }
  }

  /** A missing key reads as absent, and so does any key below it. */
  lemma MissingKeyIsAbsent(s: Section, k: string, below: string)
    requires forall j :: 0 <= j < |s.node.children| ==> !SameKey(s.node.children[j].key, k)
    ensures s.Item(k).None?
    ensures s.GetSection(k).Item(below).None?
    ensures s.GetSection(k).GetChildren() == []
  {
  }

  /** Reading a key after the indexer set it gives the value set. */
  lemma ItemAfterWithItem(s: Section, k: string, v: Option<string>)
    ensures s.WithItem(k, v).Item(k) == v
  {
    var c := s.node.children;
    match FindChild(c, k)
    case Some(i) =>
      FindChildAfterUpdate(c, i, v, k);
    case None =>
      FindChildAfterAppend(c, Node(k, v, []), k);
  }

  /** Setting one key leaves every key that differs from it (ignoring case)
      reading as before. */
  lemma OtherItemAfterWithItem(s: Section, k: string, v: Option<string>, other: string)
    requires !SameKey(k, other)
    ensures s.WithItem(k, v).Item(other) == s.Item(other)
  {
    var c := s.node.children;
    match FindChild(c, k)
    case Some(i) =>
      FindChildAfterUpdate(c, i, v, other);
    case None =>
      FindChildAfterAppend(c, Node(k, v, []), other);
  }

  lemma {:induction false} FindChildAfterUpdate(c: seq<Node>, i: nat, v: Option<string>, k: string)
    requires i < |c|
    ensures FindChild(c[i := c[i].(value := v)], k) == FindChild(c, k)
    decreases |c|
  {
    if i > 0 {
      assert c[i := c[i].(value := v)][1..] == c[1..][i - 1 := c[1..][i - 1].(value := v)];
      FindChildAfterUpdate(c[1..], i - 1, v, k);
    }
  }

  lemma {:induction false} FindChildAfterAppend(c: seq<Node>, n: Node, k: string)
    ensures FindChild(c, k).Some? ==> FindChild(c + [n], k) == FindChild(c, k)
    ensures FindChild(c, k).None? && SameKey(n.key, k) ==> FindChild(c + [n], k) == Some(|c|)
    ensures FindChild(c, k).None? && !SameKey(n.key, k) ==> FindChild(c + [n], k).None?
    decreases |c|
  {
    if c != [] {
      assert (c + [n])[1..] == c[1..] + [n];
      FindChildAfterAppend(c[1..], n, k);
    }
  }
}
