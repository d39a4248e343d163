/** The YAML loader with include tags, over a finite set of files: it ends, it fails exactly when
    some chain of includes is bad, and its result is the full substitution of the includes. */
module YamlIncludes {
  import opened Wrappers

  type Path = string

  /** A collection is a list, or a mapping with its keys. */
  datatype Shape = Items | Keys(keys: seq<string>)

  /** What a file holds. */
  datatype Node = Scalar(s: string) | Include(relative: string) | Branch(shape: Shape, children: seq<Node>)

  /** What a file is loaded to. */
  datatype Data = Text(s: string) | Collection(shape: Shape, items: seq<Data>)

  datatype Error = Escapes(relative: string) | Cyclic(path: Path) | NotFound(path: Path)

  /** The files by their resolved paths, how a relative path is resolved against the file that
      holds it, and which paths are below the source root. */
  datatype Disk = Disk(files: map<Path, Node>, resolve: (Path, string) -> Path, within: Path -> bool)

  function Rest(disk: Disk, stack: seq<Path>): set<Path> {
    disk.files.Keys - set p | p in stack
  }

  lemma {:induction false} RestShrinks(disk: Disk, stack: seq<Path>, path: Path)
    requires path in disk.files && path !in stack
    ensures |Rest(disk, stack + [path])| < |Rest(disk, stack)|
  {
    assert Rest(disk, stack + [path]) == Rest(disk, stack) - {path};
  }

  /** `_load_yaml`, where the files that are being loaded are on the stack. */
  function Load(disk: Disk, path: Path, stack: seq<Path>): Result<Data, Error>
    decreases |Rest(disk, stack)|, 0
  {
    if path in stack then Err(Cyclic(path))
    else if path !in disk.files then Err(NotFound(path))
    else
      RestShrinks(disk, stack, path);
      LoadNode(disk, path, disk.files[path], stack + [path])
  }

  /** Constructing one node of the file `current`; an include is `_include`. */
  function LoadNode(disk: Disk, current: Path, node: Node, stack: seq<Path>): Result<Data, Error>
    decreases |Rest(disk, stack)|, 1, node
  {
    match node
    case Scalar(s) => Ok(Text(s))
    case Include(relative) =>
      var target := disk.resolve(current, relative);
      if !disk.within(target) then Err(Escapes(relative)) else Load(disk, target, stack)
    case Branch(shape, children) =>
      var items := LoadNodes(disk, current, children, stack);
      if items.Err? then Err(items.error) else Ok(Collection(shape, items.value))
  }

  function LoadNodes(disk: Disk, current: Path, nodes: seq<Node>, stack: seq<Path>): Result<seq<Data>, Error>
    decreases |Rest(disk, stack)|, 1, nodes
  {
    if nodes == [] then Ok([])
    else
      var first := LoadNode(disk, current, nodes[0], stack);
      if first.Err? then Err(first.error)
      else
        var rest := LoadNodes(disk, current, nodes[1..], stack);
        if rest.Err? then rest else Ok([first.value] + rest.value)
  }

  /** `load_yaml_with_includes` */
  function LoadFile(disk: Disk, path: Path): Result<Data, Error> {
    Load(disk, path, [])
  }

  // ---- when a node loads ----

  /** The node includes the relative path, at any depth. */
  predicate Mentions(node: Node, relative: string) {
    match node
    case Scalar(_) => false
    case Include(r) => r == relative
    case Branch(_, children) => exists child | child in children :: Mentions(child, relative)
  }

  predicate IncludeLoads(disk: Disk, current: Path, relative: string, stack: seq<Path>) {
    var target := disk.resolve(current, relative);
    disk.within(target) && Load(disk, target, stack).Ok?
  }

  lemma {:induction false} NodeLoads(disk: Disk, current: Path, node: Node, stack: seq<Path>)
    ensures LoadNode(disk, current, node, stack).Ok? <==>
      forall relative | Mentions(node, relative) :: IncludeLoads(disk, current, relative, stack)
    decreases node
  {
    if node.Include? {
      assert Mentions(node, node.relative);
    } else if node.Branch? {
      NodesLoad(disk, current, node.children, stack);
    }
  }

  lemma {:induction false} NodesLoad(disk: Disk, current: Path, nodes: seq<Node>, stack: seq<Path>)
    ensures LoadNodes(disk, current, nodes, stack).Ok? <==>
      forall child, relative | child in nodes && Mentions(child, relative) ::
        IncludeLoads(disk, current, relative, stack)
    decreases nodes
  {
    if nodes != [] {
      NodeLoads(disk, current, nodes[0], stack);
      NodesLoad(disk, current, nodes[1..], stack);
      assert nodes == [nodes[0]] + nodes[1..];
    }
  }

  // ---- chains of includes ----

  ghost predicate Includes(disk: Disk, a: Path, b: Path) {
    a in disk.files && exists relative :: Mentions(disk.files[a], relative) && disk.resolve(a, relative) == b
  }

  /** Each file on the chain includes the next. */
  ghost predicate IsChain(disk: Disk, start: Path, chain: seq<Path>) {
    && chain != [] && chain[0] == start
    && forall i | 0 <= i < |chain| - 1 :: Includes(disk, chain[i], chain[i + 1])
  }

  /** The chain ends at a file that does not exist, is outside the root, or is on the chain or the
      stack already. The root file itself may be anywhere. */
  ghost predicate IsBad(disk: Disk, chain: seq<Path>, stack: seq<Path>)
    requires chain != []
  {
    var last := chain[|chain| - 1];
    || last !in disk.files || (|chain| > 1 && !disk.within(last))
    || last in chain[..|chain| - 1] || last in stack
  }

  lemma {:induction false} ChainTail(disk: Disk, start: Path, chain: seq<Path>)
    requires IsChain(disk, start, chain) && |chain| > 1
    ensures IsChain(disk, chain[1], chain[1..]) && Includes(disk, start, chain[1])
  {
    assert Includes(disk, chain[0], chain[1]);
    forall i | 0 <= i < |chain| - 2 ensures Includes(disk, chain[1..][i], chain[1..][i + 1]) {
      assert Includes(disk, chain[i + 1], chain[i + 1 + 1]);
    }
  }

  lemma {:induction false} ChainFront(disk: Disk, start: Path, next: Path, rest: seq<Path>)
    requires IsChain(disk, next, rest) && Includes(disk, start, next)
    ensures IsChain(disk, start, [start] + rest)
  {
    var chain := [start] + rest;
    forall i | 0 <= i < |chain| - 1 ensures Includes(disk, chain[i], chain[i + 1]) {
      if i > 0 {
        assert Includes(disk, rest[i - 1], rest[i - 1 + 1]);
      }
    }
  }

  lemma {:induction false} BadTail(disk: Disk, start: Path, rest: seq<Path>, stack: seq<Path>)
    requires rest != [] && disk.within(rest[0])
    ensures IsBad(disk, [start] + rest, stack) <==> IsBad(disk, rest, stack + [start])
  {
    var chain := [start] + rest;
    var last := rest[|rest| - 1];
    assert chain[|chain| - 1] == last;
    assert chain[..|chain| - 1] == [start] + rest[..|rest| - 1];
  }

  /** A file that loads has no bad chain. */
  lemma {:induction false} NoBadChain(disk: Disk, path: Path, stack: seq<Path>, chain: seq<Path>)
    requires Load(disk, path, stack).Ok? && IsChain(disk, path, chain)
    ensures !IsBad(disk, chain, stack)
    decreases |chain|
  {
    if |chain| > 1 {
      ChainTail(disk, path, chain);
      var relative :| Mentions(disk.files[path], relative) && disk.resolve(path, relative) == chain[1];
      NodeLoads(disk, path, disk.files[path], stack + [path]);
      assert IncludeLoads(disk, path, relative, stack + [path]);
      NoBadChain(disk, chain[1], stack + [path], chain[1..]);
      BadTail(disk, path, chain[1..], stack);
      assert chain == [path] + chain[1..];
    }
  }

  /** A file that does not load has a bad chain. */
  lemma {:induction false} BadChain(disk: Disk, path: Path, stack: seq<Path>) returns (chain: seq<Path>)
    requires Load(disk, path, stack).Err?
    ensures IsChain(disk, path, chain) && IsBad(disk, chain, stack)
    decreases |Rest(disk, stack)|
  {
    if path in stack || path !in disk.files {
      chain := [path];
    } else {
      NodeLoads(disk, path, disk.files[path], stack + [path]);
      var relative :| Mentions(disk.files[path], relative) && !IncludeLoads(disk, path, relative, stack + [path]);
      var target := disk.resolve(path, relative);
      assert Includes(disk, path, target);
      if !disk.within(target) {
        chain := [path, target];
      } else {
        RestShrinks(disk, stack, path);
        var rest := BadChain(disk, target, stack + [path]);
        ChainFront(disk, path, target, rest);
        BadTail(disk, path, rest, stack);
        chain := [path] + rest;
      }
    }
  }

  /** A file loads exactly when no chain of includes that starts at it ends at a missing file,
      outside the root, or at a file it has been through before. */
  lemma {:induction false} LoadsExactly(disk: Disk, path: Path)
    ensures LoadFile(disk, path).Ok? <==> forall chain | IsChain(disk, path, chain) :: !IsBad(disk, chain, [])
  {
    if LoadFile(disk, path).Ok? {
      forall chain | IsChain(disk, path, chain) ensures !IsBad(disk, chain, []) {
        NoBadChain(disk, path, [], chain);
      }
    } else {
      var chain := BadChain(disk, path, []);
    }
  }

  // ---- what a file loads to ----

  /** The stack decides whether a file loads, not to what. */
  lemma {:induction false} StackIrrelevant(disk: Disk, path: Path, stack: seq<Path>, less: seq<Path>)
    requires Load(disk, path, stack).Ok? && forall p | p in less :: p in stack
    ensures Load(disk, path, less) == Load(disk, path, stack)
    decreases |Rest(disk, stack)|, 0
  {
    RestShrinks(disk, stack, path);
    StackIrrelevantNode(disk, path, disk.files[path], stack + [path], less + [path]);
  }

  lemma {:induction false} StackIrrelevantNode(disk: Disk, current: Path, node: Node, stack: seq<Path>, less: seq<Path>)
    requires LoadNode(disk, current, node, stack).Ok? && forall p | p in less :: p in stack
    ensures LoadNode(disk, current, node, less) == LoadNode(disk, current, node, stack)
    decreases |Rest(disk, stack)|, 1, node
  {
    if node.Include? {
      StackIrrelevant(disk, disk.resolve(current, node.relative), stack, less);
    } else if node.Branch? {
      StackIrrelevantNodes(disk, current, node.children, stack, less);
    }
  }

  lemma {:induction false} StackIrrelevantNodes(disk: Disk, current: Path, nodes: seq<Node>, stack: seq<Path>,
      less: seq<Path>)
    requires LoadNodes(disk, current, nodes, stack).Ok? && forall p | p in less :: p in stack
    ensures LoadNodes(disk, current, nodes, less) == LoadNodes(disk, current, nodes, stack)
    decreases |Rest(disk, stack)|, 1, nodes
  {
    if nodes != [] {
      StackIrrelevantNode(disk, current, nodes[0], stack, less);
      StackIrrelevantNodes(disk, current, nodes[1..], stack, less);
    }
  }

  /** The node with every include replaced by what the included file loads to on its own. */
  function Substituted(disk: Disk, current: Path, node: Node): Data {
    match node
    case Scalar(s) => Text(s)
    case Include(relative) =>
      var loaded := LoadFile(disk, disk.resolve(current, relative));
      if loaded.Ok? then loaded.value else Text("")
    case Branch(shape, children) => Collection(shape, SubstitutedAll(disk, current, children))
  }

  function SubstitutedAll(disk: Disk, current: Path, nodes: seq<Node>): seq<Data> {
    if nodes == [] then [] else [Substituted(disk, current, nodes[0])] + SubstitutedAll(disk, current, nodes[1..])
  }

  lemma {:induction false} NodeSubstitutes(disk: Disk, current: Path, node: Node, stack: seq<Path>)
    requires LoadNode(disk, current, node, stack).Ok?
    ensures LoadNode(disk, current, node, stack).value == Substituted(disk, current, node)
    decreases node
  {
    if node.Include? {
      StackIrrelevant(disk, disk.resolve(current, node.relative), stack, []);
    } else if node.Branch? {
      NodesSubstitute(disk, current, node.children, stack);
    }
  }

  lemma {:induction false} NodesSubstitute(disk: Disk, current: Path, nodes: seq<Node>, stack: seq<Path>)
    requires LoadNodes(disk, current, nodes, stack).Ok?
    ensures LoadNodes(disk, current, nodes, stack).value == SubstitutedAll(disk, current, nodes)
    decreases nodes
  {
    if nodes != [] {
      NodeSubstitutes(disk, current, nodes[0], stack);
      NodesSubstitute(disk, current, nodes[1..], stack);
    }
  }

  /** Where a file loads, every file that it includes loads on its own, and the result is the
      file with each include replaced by what that file loads to. */
  lemma {:induction false} LoadSubstitutes(disk: Disk, path: Path, relative: string)
    requires LoadFile(disk, path).Ok?
    ensures LoadFile(disk, path).value == Substituted(disk, path, disk.files[path])
    ensures Mentions(disk.files[path], relative) ==> LoadFile(disk, disk.resolve(path, relative)).Ok?
  {
    assert [] + [path] == [path];
    NodeSubstitutes(disk, path, disk.files[path], [path]);
    if Mentions(disk.files[path], relative) {
      NodeLoads(disk, path, disk.files[path], [path]);
      assert IncludeLoads(disk, path, relative, [path]);
      StackIrrelevant(disk, disk.resolve(path, relative), [path], []);
    }
  }
}
