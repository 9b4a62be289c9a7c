/**
 * The sidebar file tree of the repository browser: fetching a directory's
 * entries from the GraphQL API and the tree provider that the tree view
 * asks for entries, children, parents, node IDs and what may be expanded
 * or selected.
 */
module FileTree {
  import opened Wrappers
  import opened Slices

  const MaxFileTreeEntries: nat := 1000
  const NodeLimitID: string := "node-limit"

  datatype TreeEntry = TreeEntry(canonicalURL: string, name: string, path: string, isDirectory: bool)

  /** The tree at the requested path: itself as an entry, whether it is the repository root, and its entries. */
  datatype TreeRoot = TreeRoot(self: TreeEntry, isRoot: bool, entries: seq<TreeEntry>)

  datatype GitCommitWithTree = GitCommitWithTree(id: string, tree: Option<TreeRoot>)

  /** The `node` of the TreeEntries query: its GraphQL type name and, for a repository, the commit. */
  datatype QueryNode = QueryNode(typename: string, commit: Option<GitCommitWithTree>)

  datatype TreeEntriesResult = TreeEntriesResult(node: Option<QueryNode>)

  datatype TreeEntriesVariables = TreeEntriesVariables(repoID: string, commitID: string, filePath: string, first: Option<int>)

  /** A value shown in the tree: an entry or the marker that the listing was cut off. */
  datatype FileTreeNodeValue = Entry(entry: TreeEntry) | NodeLimit

  datatype TreeError =
    | QueryFailed(msg: string)
    | RepositoryUnavailable
    | DirectoryUnavailable
    | NotExpandable
    | LoaderFailed(msg: string)

  /** The variables sent with the query: `first` defaults to 1000 when the caller gives none. */
  function QueryVariables(args: TreeEntriesVariables): (v: TreeEntriesVariables)
    ensures args.first.None? ==> v.first == Some(MaxFileTreeEntries)
    ensures args.first.Some? ==> v.first == args.first
    ensures v.(first := args.first) == args
  {
    args.(first := Some(args.first.GetOr(MaxFileTreeEntries)))
  }

  /**
   * Fetches the commit and tree of a path. `query` runs the GraphQL query
   * and fails when the request does.
   */
  function FetchTreeEntries(args: TreeEntriesVariables, query: TreeEntriesVariables -> Result<TreeEntriesResult, string>)
    : (r: Result<GitCommitWithTree, TreeError>)
    ensures query(QueryVariables(args)).Failure? ==> r == Failure(QueryFailed(query(QueryVariables(args)).error))
    ensures query(QueryVariables(args)).Success? ==>
              var node := query(QueryVariables(args)).value.node;
              (r.Success? <==> node.Some? && node.value.typename == "Repository" && node.value.commit.Some?) &&
              (r.Success? ==> r.value == node.value.commit.value) &&
              (r.Failure? ==> r.error == RepositoryUnavailable)
  {
    match query(QueryVariables(args))
    case Failure(e) => Failure(QueryFailed(e))
    case Success(data) =>
      if data.node.None? || data.node.value.typename != "Repository" || data.node.value.commit.None? then
        Failure(RepositoryUnavailable)
      else
        Success(data.node.value.commit.value)
  }

  datatype SidebarTree = SidebarTree(root: TreeRoot, values: seq<FileTreeNodeValue>)

  /** Each entry as a value of the tree, in order. */
  function Entries(entries: seq<TreeEntry>): seq<FileTreeNodeValue> {
    Map(entries, (e: TreeEntry) => Entry(e))
  }

  /**
   * The root and values of the sidebar tree for a path, asking for at most
   * 1000 entries; a full listing gets the NodeLimit marker appended.
   */
  function FetchSidebarFileTree(repoID: string, commitID: string, filePath: string,
                                query: TreeEntriesVariables -> Result<TreeEntriesResult, string>)
    : (r: Result<SidebarTree, TreeError>)
    ensures var commit := FetchTreeEntries(TreeEntriesVariables(repoID, commitID, filePath, Some(MaxFileTreeEntries)), query);
            (commit.Failure? ==> r == Failure(commit.error)) &&
            (commit.Success? && commit.value.tree.None? ==> r == Failure(DirectoryUnavailable)) &&
            (commit.Success? && commit.value.tree.Some? ==> r.Success? && r.value.root == commit.value.tree.value)
    ensures r.Success? ==>
              var entries := r.value.root.entries;
              var values := r.value.values;
              |values| >= |entries| &&
              (forall i :: 0 <= i < |entries| ==> values[i] == Entry(entries[i])) &&
              (NodeLimit in values <==> |entries| >= MaxFileTreeEntries) &&
              (|entries| >= MaxFileTreeEntries ==> |values| == |entries| + 1 && values[|entries|] == NodeLimit) &&
              (|entries| < MaxFileTreeEntries ==> |values| == |entries|)
  {
    var vars := TreeEntriesVariables(repoID, commitID, filePath, Some(MaxFileTreeEntries));
    match FetchTreeEntries(vars, query)
    case Failure(e) => Failure(e)
    case Success(commit) =>
      if commit.tree.None? then Failure(DirectoryUnavailable)
      else
        var root := commit.tree.value;
        var values := Entries(root.entries);
        if |values| >= MaxFileTreeEntries then Success(SidebarTree(root, values + [NodeLimit]))
        else Success(SidebarTree(root, values))
  }

  /** The arguments the tree loader is called with. */
  datatype LoaderArgs = LoaderArgs(repoID: string, commitID: string, filePath: string, parent: Option<FileTreeProvider>)

  /** The provider's constructor arguments; the loader is passed to the calls that use it. */
  datatype FileTreeProvider = FileTreeProvider(
    root: TreeRoot,
    values: seq<FileTreeNodeValue>,
    repoID: string,
    commitID: string,
    parent: Option<FileTreeProvider>)

  /** The root as a value of the tree. */
  function RootValue(p: FileTreeProvider): FileTreeNodeValue {
    Entry(p.root.self)
  }

  /**
   * The entries shown: the values, preceded by the root as an entry for
   * going "up" when the provider has no parent and is not at the
   * repository root.
   */
  function GetEntries(p: FileTreeProvider): (r: seq<FileTreeNodeValue>)
    ensures p.parent.Some? || p.root.isRoot ==> r == p.values
    ensures p.parent.None? && !p.root.isRoot ==> |r| == |p.values| + 1 && r[0] == RootValue(p) && r[1..] == p.values
  {
    if p.parent.Some? || p.root.isRoot then p.values else [RootValue(p)] + p.values
  }

  function GetNodeID(v: FileTreeNodeValue): (id: string)
    ensures v.NodeLimit? ==> id == NodeLimitID
    ensures v.Entry? ==> id == v.entry.path
  {
    match v
    case NodeLimit => NodeLimitID
    case Entry(e) => e.path
  }

  /** Whether the tree view may expand a value: a directory entry other than the root. */
  predicate IsExpandable(p: FileTreeProvider, v: FileTreeNodeValue): (r: bool)
    ensures r ==> v.Entry? && v.entry.isDirectory && IsSelectable(v)
  {
    v != NodeLimit && v != RootValue(p) && v.entry.isDirectory
  }

  /** Whether the tree view may select a value: anything but the NodeLimit marker. */
  predicate IsSelectable(v: FileTreeNodeValue) {
    v != NodeLimit
  }

  /** Expandable values are exactly the directory entries other than the root; all of them are selectable. */
  lemma ExpandableMeaning(p: FileTreeProvider, v: FileTreeNodeValue)
    ensures IsExpandable(p, v) <==> v.Entry? && v.entry != p.root.self && v.entry.isDirectory
    ensures IsExpandable(p, v) ==> IsSelectable(v)
    ensures IsSelectable(v) <==> v.Entry?
  {
  }

  /** The "up" entry that GetEntries adds can be selected but never expanded. */
  lemma UpEntryNotExpandable(p: FileTreeProvider)
    requires p.parent.None? && !p.root.isRoot
    ensures !IsExpandable(p, GetEntries(p)[0]) && IsSelectable(GetEntries(p)[0])
  {
  }

  /**
   * In a sidebar listing the only value that cannot be selected is the
   * NodeLimit marker, and it is last.
   */
  lemma SidebarSelectable(t: SidebarTree, i: nat, repoID: string, commitID: string, filePath: string,
                          query: TreeEntriesVariables -> Result<TreeEntriesResult, string>)
    requires FetchSidebarFileTree(repoID, commitID, filePath, query) == Success(t)
    requires i < |t.values|
    ensures !IsSelectable(t.values[i]) <==> i == |t.root.entries|
    ensures i == |t.root.entries| ==> GetNodeID(t.values[i]) == NodeLimitID
    ensures i < |t.root.entries| ==> GetNodeID(t.values[i]) == t.root.entries[i].path
  {
  }

  /** Node IDs are distinct when the entries' paths are distinct and none is "node-limit". */
  lemma NodeIDsDistinct(v: FileTreeNodeValue, w: FileTreeNodeValue)
    requires v != w
    requires v.Entry? ==> v.entry.path != NodeLimitID
    requires w.Entry? ==> w.entry.path != NodeLimitID
    requires v.Entry? && w.Entry? ==> v.entry.path != w.entry.path
    ensures GetNodeID(v) != GetNodeID(w)
  {
  }

  /** An entry at path "node-limit" has the same node ID as the NodeLimit marker. */
  lemma NodeIDCollision(e: TreeEntry)
    requires e.path == NodeLimitID
    ensures Entry(e) != NodeLimit && GetNodeID(Entry(e)) == GetNodeID(NodeLimit)
  {
  }

  /** Loads the children of an expandable entry, with this provider as their parent. */
  function FetchChildren(p: FileTreeProvider, v: FileTreeNodeValue, loader: LoaderArgs -> Result<FileTreeProvider, string>)
    : (r: Result<FileTreeProvider, TreeError>)
    ensures !IsExpandable(p, v) ==> r == Failure(NotExpandable)
    ensures IsExpandable(p, v) ==>
              var call := loader(LoaderArgs(p.repoID, p.commitID, v.entry.path, Some(p)));
              (call.Success? ==> r == Success(call.value)) &&
              (call.Failure? ==> r == Failure(LoaderFailed(call.error)))
  {
    if !IsExpandable(p, v) then Failure(NotExpandable)
    else
      match loader(LoaderArgs(p.repoID, p.commitID, v.entry.path, Some(p)))
      case Success(child) => Success(child)
      case Failure(e) => Failure(LoaderFailed(e))
  }

  /** Loads the directory above the root, with no parent; `dirname` is the path library's dirname. */
  function FetchParent(p: FileTreeProvider, dirname: string -> string, loader: LoaderArgs -> Result<FileTreeProvider, string>)
    : (r: Result<FileTreeProvider, TreeError>)
    ensures var call := loader(LoaderArgs(p.repoID, p.commitID, dirname(p.root.self.path), None));
            (call.Success? ==> r == Success(call.value)) &&
            (call.Failure? ==> r == Failure(LoaderFailed(call.error)))
  {
    match loader(LoaderArgs(p.repoID, p.commitID, dirname(p.root.self.path), None))
    case Success(up) => Success(up)
    case Failure(e) => Failure(LoaderFailed(e))
  }
}
