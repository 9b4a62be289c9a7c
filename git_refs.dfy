/**
 * The Git ref listing of a repository in the GraphQL API: branches and tags
 * are listed, filtered by a query, ordered, combined into one list of fully
 * qualified refs and paginated.
 */
module GitRefs {
  import opened Wrappers
  import opened Strings
  import opened Slices

  type CommitID = string

  /** A 32-bit signed integer, the GraphQL `Int`. */
  type Int32 = x: int | -0x8000_0000 <= x < 0x8000_0000

  datatype Branch = Branch(name: string, head: CommitID)

  datatype Tag = Tag(name: string, commitID: CommitID)

  /** Dates are instants on one time line; `committerDate` is None when the commit has no committer. */
  datatype Commit = Commit(authorDate: int, committerDate: Option<int>)

  datatype GitRef = GitRef(name: string, target: CommitID)

  /** The values of the GraphQL enums GitRefType and GitRefOrder. */
  datatype RefType = GitBranch | GitTag | GitRefOther

  datatype RefOrder = AuthoredOrCommittedAt

  datatype RefsArgs = RefsArgs(
    first: Option<Int32>,
    query: Option<string>,
    refType: Option<RefType>,
    orderBy: Option<RefOrder>,
    interactive: bool)

  /** The failure of a gitserver call made while listing refs. */
  datatype RefsError = ListBranchesFailed(msg: string) | ListTagsFailed(msg: string) | GetCommitFailed(cause: FetchError)

  /**
   * The error of one GetCommit call. InteractiveTimeout stands for a failure
   * observed after the 5-second interactive deadline expired while the
   * caller's own context was still live.
   */
  datatype FetchError = InteractiveTimeout | FetchFailed(msg: string)

  const HeadsPrefix: string := "refs/heads/"
  const TagsPrefix: string := "refs/tags/"
  const InteractiveBranchLimit: nat := 1000

  // ---------------------------------------------------------------------
  // Which refs are listed

  predicate ListsBranches(t: Option<RefType>) {
    t == None || t == Some(GitBranch)
  }

  predicate ListsTags(t: Option<RefType>) {
    t == None || t == Some(GitTag)
  }

  predicate OrdersByDate(args: RefsArgs) {
    args.orderBy == Some(AuthoredOrCommittedAt)
  }

  /** With no type every kind is listed; with a type, exactly one kind is. */
  lemma RefTypeSelection(t: Option<RefType>)
    ensures t == None ==> ListsBranches(t) && ListsTags(t)
    ensures t == Some(GitBranch) ==> ListsBranches(t) && !ListsTags(t)
    ensures t == Some(GitTag) ==> !ListsBranches(t) && ListsTags(t)
    ensures t == Some(GitRefOther) ==> !ListsBranches(t) && !ListsTags(t)
  {
  }

  // ---------------------------------------------------------------------
  // Query filter

  /** The case-insensitive substring test applied to a name. */
  predicate NameMatches(name: string, query: string) {
    Contains(ToLower(name), ToLower(query))
  }

  function BranchMatches(query: string): Branch -> bool {
    (b: Branch) => NameMatches(b.name, query)
  }

  /** The prefix the ref's name is shown without: refs/heads/ or refs/tags/. */
  function RefPrefix(name: string): (p: string)
    ensures p == "" || p == HeadsPrefix || p == TagsPrefix
    ensures HasPrefix(name, p)
  {
    if HasPrefix(name, HeadsPrefix) then HeadsPrefix
    else if HasPrefix(name, TagsPrefix) then TagsPrefix
    else ""
  }

  /** The name of a ref without its prefix. */
  function ShortName(ref: GitRef): string {
    TrimPrefix(ref.name, RefPrefix(ref.name))
  }

  function RefMatches(query: string): GitRef -> bool {
    (r: GitRef) => NameMatches(ShortName(r), query)
  }

  /** The branches kept by the query, in their original order. */
  function FilterBranches(branches: seq<Branch>, query: Option<string>): (r: seq<Branch>)
    ensures |r| <= |branches|
  {
    if query.Some? then Filter(branches, BranchMatches(query.value)) else branches
  }

  /** The refs kept by the query, in their original order. */
  function FilterRefs(refs: seq<GitRef>, query: Option<string>): (r: seq<GitRef>)
    ensures |r| <= |refs|
  {
    if query.Some? then Filter(refs, RefMatches(query.value)) else refs
  }

  /**
   * The branch filter keeps exactly the branches whose lower-cased name
   * contains the lower-cased query, and keeps them in their original order.
   */
  lemma BranchFilterKeeps(branches: seq<Branch>, query: string, b: Branch)
    ensures b in FilterBranches(branches, Some(query)) <==> b in branches && NameMatches(b.name, query)
  {
    FilterMembership(branches, BranchMatches(query), b);
  }

  /**
   * Two kept branches `i < j` appear in the filtered list at the positions
   * given by the number of kept branches before each, so in the same order.
   */
  lemma BranchFilterKeepsOrder(branches: seq<Branch>, query: string, i: nat, j: nat)
    requires i < j < |branches|
    requires NameMatches(branches[i].name, query) && NameMatches(branches[j].name, query)
    ensures var r := FilterBranches(branches, Some(query));
            var ri, rj := |Filter(branches[..i], BranchMatches(query))|, |Filter(branches[..j], BranchMatches(query))|;
            ri < rj < |r| && r[ri] == branches[i] && r[rj] == branches[j]
  {
    var keep := BranchMatches(query);
    FilterRank(branches, keep, i, j);
    FilterRank(branches, keep, i, |branches|);
    FilterRank(branches, keep, j, |branches|);
    assert branches[..|branches|] == branches;
  }

  /** The empty query keeps every branch. */
  lemma EmptyQueryKeepsAll(branches: seq<Branch>)
    ensures FilterBranches(branches, Some("")) == branches
  {
    forall i | 0 <= i < |branches| ensures BranchMatches("")(branches[i]) {
      ContainsEmpty(ToLower(branches[i].name));
    }
    FilterAllKept(branches, BranchMatches(""));
  }

  // ---------------------------------------------------------------------
  // Ordering by date

  /** The commit's date: the committer date when it is later than the author date, else the author date. */
  function CommitDate(c: Commit): (d: int)
    ensures d >= c.authorDate
    ensures c.committerDate.Some? ==> d >= c.committerDate.value
    ensures d == c.authorDate || c.committerDate == Some(d)
  {
    if c.committerDate.None? then c.authorDate
    else if c.committerDate.value > c.authorDate then c.committerDate.value
    else c.authorDate
  }

  /** The comparison handed to sort.Slice when ordering branches by date. */
  predicate BranchLess(commits: map<Branch, Commit>, bi: Branch, bj: Branch): (r: bool)
    ensures r ==> bi in commits
  {
    if bi !in commits then false
    else if bj !in commits then true
    else
      var di, dj := CommitDate(commits[bi]), CommitDate(commits[bj]);
      if di == dj then LexLess(bi.name, bj.name) else di > dj
  }

  function ByRecency(commits: map<Branch, Commit>): (Branch, Branch) -> bool {
    (bi: Branch, bj: Branch) => BranchLess(commits, bi, bj)
  }

  lemma ByRecencyIsStrictOrder(commits: map<Branch, Commit>)
    ensures StrictOrder(ByRecency(commits))
  {
    var less := ByRecency(commits);
    forall x ensures !less(x, x) {
      LexLessIrreflexive(x.name);
    }
    forall x, y, z | less(x, y) && less(y, z) ensures less(x, z) {
      if z in commits && CommitDate(commits[x]) == CommitDate(commits[y]) == CommitDate(commits[z]) {
        LexLessTransitive(x.name, y.name, z.name);
      }
    }
  }

  /**
   * What a branch list sorted by recency looks like: branches with a fetched
   * commit come first; among them newer dates come first, and equal dates
   * are in ascending name order.
   */
  lemma RecencyOrderMeaning(commits: map<Branch, Commit>, s: seq<Branch>, i: nat, j: nat)
    requires SortedBy(s, ByRecency(commits))
    requires i < j < |s|
    ensures s[i] !in commits ==> s[j] !in commits
    ensures s[i] in commits && s[j] in commits ==>
              CommitDate(commits[s[i]]) >= CommitDate(commits[s[j]])
    ensures s[i] in commits && s[j] in commits && s[i].name != s[j].name &&
            CommitDate(commits[s[i]]) == CommitDate(commits[s[j]]) ==>
              LexLess(s[i].name, s[j].name)
  {
    assert !ByRecency(commits)(s[j], s[i]);
    if s[i].name != s[j].name {
      LexLessTotal(s[i].name, s[j].name);
    }
  }

  /** The descending-name comparison handed to sort.Slice for tags. */
  function ByNameDescending(): (Tag, Tag) -> bool {
    (ti: Tag, tj: Tag) => LexLess(tj.name, ti.name)
  }

  lemma ByNameDescendingIsStrictOrder()
    ensures StrictOrder(ByNameDescending())
  {
    var less := ByNameDescending();
    forall x ensures !less(x, x) {
      LexLessIrreflexive(x.name);
    }
    forall x, y, z | less(x, y) && less(y, z) ensures less(x, z) {
      LexLessTransitive(z.name, y.name, x.name);
    }
  }

  /** Tags sorted by ByNameDescending have non-increasing names. */
  lemma TagOrderMeaning(s: seq<Tag>, i: nat, j: nat)
    requires SortedBy(s, ByNameDescending())
    requires i < j < |s|
    requires s[i].name != s[j].name
    ensures LexLess(s[j].name, s[i].name)
  {
    assert !ByNameDescending()(s[j], s[i]);
    LexLessTotal(s[i].name, s[j].name);
  }

  // ---------------------------------------------------------------------
  // Fetching the branches' commits

  /** The outcome of fetching every branch's commit. */
  datatype FetchOutcome = Fetched(commits: map<Branch, Commit>) | Skipped | Failed(err: FetchError)

  /** The index of the first branch whose commit cannot be fetched, or |branches| when none fails. */
  function FirstFailure(branches: seq<Branch>, getCommit: CommitID -> Result<Commit, FetchError>): (k: nat)
    ensures k <= |branches|
    ensures forall i :: 0 <= i < k ==> getCommit(branches[i].head).Success?
    ensures k < |branches| ==> getCommit(branches[k].head).Failure?
    decreases |branches|
  {
    if |branches| == 0 || getCommit(branches[0].head).Failure? then 0
    else 1 + FirstFailure(branches[1..], getCommit)
  }

  /** What fetchBranchCommits reports, as a function of its inputs. */
  ghost function FetchSpec(interactive: bool, branches: seq<Branch>, getCommit: CommitID -> Result<Commit, FetchError>): FetchOutcome {
    if interactive && |branches| > InteractiveBranchLimit then Skipped
    else
      var k := FirstFailure(branches, getCommit);
      if k == |branches| then
        Fetched(map b | b in branches :: getCommit(b.head).value)
      else
        var e := getCommit(branches[k].head).error;
        if interactive && e == InteractiveTimeout then Skipped else Failed(e)
  }

  function BranchHead(b: Branch): CommitID {
    b.head
  }

  /** The head commit IDs of the branches, in order. */
  function Heads(branches: seq<Branch>): seq<CommitID> {
    Map(branches, BranchHead)
  }

  /**
   * Fetches the commit of every branch, one GetCommit call per branch, and
   * stops at the first failure. In interactive mode more than 1000 branches
   * are not fetched at all. `requested` records the commits asked for.
   */
  method FetchBranchCommits(interactive: bool, branches: seq<Branch>, getCommit: CommitID -> Result<Commit, FetchError>)
    returns (m: map<Branch, Commit>, ok: bool, err: Option<FetchError>, ghost requested: seq<CommitID>)
    ensures interactive && |branches| > InteractiveBranchLimit ==> !ok && err == None && requested == []
    ensures !(interactive && |branches| > InteractiveBranchLimit) ==>
              var k := FirstFailure(branches, getCommit);
              requested == Heads(branches[..if k < |branches| then k + 1 else k])
    ensures ok ==> err == None
    ensures match FetchSpec(interactive, branches, getCommit)
            case Fetched(commits) => ok && m == commits
            case Skipped => !ok && err == None
            case Failed(e) => !ok && err == Some(e)
  {
    requested := [];
    if interactive && |branches| > InteractiveBranchLimit {
      return map[], false, None, requested;
    }
    m := map[];
    var i := 0;
    while i < |branches|
      invariant 0 <= i <= |branches|
      invariant forall j :: 0 <= j < i ==> getCommit(branches[j].head).Success?
      invariant requested == Heads(branches[..i])
      invariant m == map b | b in branches[..i] :: getCommit(b.head).value
    {
      var branch := branches[i];
      var c := getCommit(branch.head);
      requested := requested + [branch.head];
      assert branches[..i + 1] == branches[..i] + [branch];
      if c.Failure? {
        FirstFailureAt(branches, getCommit, i);
        if interactive && c.error == InteractiveTimeout {
          return m, false, None, requested;
        }
        return m, false, Some(c.error), requested;
      }
      m := m[branch := c.value];
      i := i + 1;
    }
    FirstFailureAt(branches, getCommit, i);
    assert branches[..i] == branches;
    ok, err := true, None;
  }

  /** The first failure is at `i` when every earlier fetch succeeds and the one at `i` fails (or `i` is the end). */
  lemma {:induction false} FirstFailureAt(branches: seq<Branch>, getCommit: CommitID -> Result<Commit, FetchError>, i: nat)
    requires i <= |branches|
    requires forall j :: 0 <= j < i ==> getCommit(branches[j].head).Success?
    requires i < |branches| ==> getCommit(branches[i].head).Failure?
    ensures FirstFailure(branches, getCommit) == i
    decreases i
  {
    if i > 0 {
      FirstFailureAt(branches[1..], getCommit, i - 1);
    }
  }

  /** In interactive mode more than 1000 branches are never fetched and never sorted. */
  lemma InteractiveCutoff(branches: seq<Branch>, getCommit: CommitID -> Result<Commit, FetchError>)
    requires |branches| > InteractiveBranchLimit
    ensures FetchSpec(true, branches, getCommit) == Skipped
  {
  }

  // ---------------------------------------------------------------------
  // Combining branches and tags

  function BranchRef(b: Branch): GitRef {
    GitRef(HeadsPrefix + b.name, b.head)
  }

  function TagRef(t: Tag): GitRef {
    GitRef(TagsPrefix + t.name, t.commitID)
  }

  function BranchRefs(branches: seq<Branch>): (r: seq<GitRef>)
    ensures |r| == |branches|
    ensures forall i :: 0 <= i < |branches| ==> r[i] == BranchRef(branches[i])
  {
    Map(branches, BranchRef)
  }

  function TagRefs(tags: seq<Tag>): (r: seq<GitRef>)
    ensures |r| == |tags|
    ensures forall i :: 0 <= i < |tags| ==> r[i] == TagRef(tags[i])
  {
    Map(tags, TagRef)
  }

  /** Branches then tags, as fully qualified refs. */
  function Combine(branches: seq<Branch>, tags: seq<Tag>): (r: seq<GitRef>)
    ensures |r| == |branches| + |tags|
  {
    BranchRefs(branches) + TagRefs(tags)
  }

  /** The short name of a branch ref is the branch name. */
  lemma BranchRefShortName(b: Branch)
    ensures HasPrefix(BranchRef(b).name, HeadsPrefix)
    ensures ShortName(BranchRef(b)) == b.name
  {
    TrimPrefixOfConcat(HeadsPrefix, b.name);
  }

  /** The short name of a tag ref is the tag name. */
  lemma TagRefShortName(t: Tag)
    ensures HasPrefix(TagRef(t).name, TagsPrefix)
    ensures ShortName(TagRef(t)) == t.name
  {
    var name := TagRef(t).name;
    assert !HasPrefix(name, HeadsPrefix) by {
      assert name[5] == 't' && HeadsPrefix[5] == 'h';
    }
    TrimPrefixOfConcat(TagsPrefix, t.name);
  }

  /** Entry i of the combined list is branch i, then tag i - |branches|; short names recover the names. */
  lemma CombineLayout(branches: seq<Branch>, tags: seq<Tag>, i: nat)
    requires i < |branches| + |tags|
    ensures var r := Combine(branches, tags)[i];
            if i < |branches| then
              r.name == HeadsPrefix + branches[i].name && r.target == branches[i].head &&
              ShortName(r) == branches[i].name
            else
              r.name == TagsPrefix + tags[i - |branches|].name && r.target == tags[i - |branches|].commitID &&
              ShortName(r) == tags[i - |branches|].name
  {
    if i < |branches| {
      BranchRefShortName(branches[i]);
    } else {
      TagRefShortName(tags[i - |branches|]);
    }
  }

  function TagMatches(query: string): Tag -> bool {
    (t: Tag) => NameMatches(t.name, query)
  }

  /**
   * Filtering the combined list keeps every branch that matches the query,
   * in whatever order the branches come (filtered, or sorted by date), and
   * applies the same test to the tags.
   */
  lemma RefFilterOnCombined(branches: seq<Branch>, tags: seq<Tag>, query: string)
    requires forall b :: b in branches ==> NameMatches(b.name, query)
    ensures FilterRefs(Combine(branches, tags), Some(query)) ==
            Combine(branches, Filter(tags, TagMatches(query)))
  {
    var keep := RefMatches(query);
    var refs := BranchRefs(branches);
    FilterConcat(refs, TagRefs(tags), keep);
    forall i | 0 <= i < |refs| ensures keep(refs[i]) {
      BranchRefShortName(branches[i]);
    }
    FilterAllKept(refs, keep);
    FilterTagRefs(tags, query);
  }

  /** In particular, the second filter keeps every branch the first filter kept. */
  lemma RefFilterAfterBranchFilter(branches: seq<Branch>, tags: seq<Tag>, query: string)
    ensures FilterRefs(Combine(FilterBranches(branches, Some(query)), tags), Some(query)) ==
            Combine(FilterBranches(branches, Some(query)), Filter(tags, TagMatches(query)))
  {
    var fb := FilterBranches(branches, Some(query));
    forall b | b in fb ensures NameMatches(b.name, query) {
      FilterMembership(branches, BranchMatches(query), b);
    }
    RefFilterOnCombined(fb, tags, query);
  }

  /** Filtering tag refs by short name is filtering the tags by name. */
  lemma FilterTagRefs(tags: seq<Tag>, query: string)
    ensures Filter(TagRefs(tags), RefMatches(query)) == TagRefs(Filter(tags, TagMatches(query)))
  {
    forall i | 0 <= i < |tags|
      ensures RefMatches(query)(TagRef(tags[i])) == TagMatches(query)(tags[i])
    {
      TagRefShortName(tags[i]);
    }
    FilterMap(tags, TagRef, RefMatches(query), TagMatches(query));
  }

  /** Builds the combined ref array by index, branches first. */
  method CombineRefs(branches: seq<Branch>, tags: seq<Tag>) returns (refs: array<GitRef>)
    ensures fresh(refs)
    ensures refs[..] == Combine(branches, tags)
  {
    refs := new GitRef[|branches| + |tags|];
    for i := 0 to |branches|
      invariant forall k :: 0 <= k < i ==> refs[k] == BranchRef(branches[k])
    {
      refs[i] := GitRef(HeadsPrefix + branches[i].name, branches[i].head);
    }
    for i := 0 to |tags|
      invariant forall k :: 0 <= k < |branches| ==> refs[k] == BranchRef(branches[k])
      invariant forall k :: 0 <= k < i ==> refs[|branches| + k] == TagRef(tags[k])
    {
      refs[i + |branches|] := GitRef(TagsPrefix + tags[i].name, tags[i].commitID);
    }
  }

  // ---------------------------------------------------------------------
  // The connection and its pagination

  datatype GitRefConnection = GitRefConnection(first: Option<Int32>, refs: seq<GitRef>)

  /** A runtime panic of the slice expression. */
  datatype Panic = SliceBoundsOutOfRange

  /**
   * The page of refs: the first `first` refs when `first` is set and below
   * the count, else all of them. A negative `first` makes the slice
   * expression panic.
   */
  function Nodes(c: GitRefConnection): (r: Result<seq<GitRef>, Panic>)
    ensures r.Failure? <==> c.first.Some? && c.first.value < 0
    ensures r.Success? ==> r.value <= c.refs
    ensures r.Success? && c.first.Some? && c.first.value < |c.refs| ==> |r.value| == c.first.value
    ensures r.Success? && (c.first.None? || c.first.value >= |c.refs|) ==> r.value == c.refs
  {
    if c.first.Some? && |c.refs| > c.first.value then
      if c.first.value < 0 then Failure(SliceBoundsOutOfRange) else Success(c.refs[..c.first.value])
    else Success(c.refs)
  }

  /** Go's conversion of a non-negative int to int32: the low 32 bits, read as two's complement. */
  function WrapInt32(n: nat): (r: Int32)
    ensures n < 0x8000_0000 ==> r == n
    ensures r % 0x1_0000_0000 == n % 0x1_0000_0000
  {
    var low := n % 0x1_0000_0000;
    if low < 0x8000_0000 then low else low - 0x1_0000_0000
  }

  function TotalCount(c: GitRefConnection): (r: Int32)
    ensures |c.refs| < 0x8000_0000 ==> r == |c.refs|
    ensures r % 0x1_0000_0000 == |c.refs| % 0x1_0000_0000
  {
    WrapInt32(|c.refs|)
  }

  function HasNextPage(c: GitRefConnection): (r: bool)
    ensures r <==> c.first.Some? && c.first.value < |c.refs|
  {
    c.first.Some? && c.first.value < |c.refs|
  }

  /** There is a next page exactly when the page holds fewer refs than the total count. */
  lemma PageInfoAgreesWithNodes(c: GitRefConnection)
    requires |c.refs| < 0x8000_0000
    requires c.first.None? || c.first.value >= 0
    ensures Nodes(c).Success?
    ensures HasNextPage(c) <==> |Nodes(c).value| < TotalCount(c)
  {
  }

  // ---------------------------------------------------------------------
  // GitRefs, Branches and Tags

  /**
   * The branch half of GitRefs: the listed branches are filtered by the
   * query in place and, when ordering by date and every commit could be
   * fetched, sorted in place by recency.
   */
  method SelectBranches(args: RefsArgs, listed: seq<Branch>, getCommit: CommitID -> Result<Commit, FetchError>)
    returns (branches: seq<Branch>, err: Option<FetchError>)
    ensures var filtered := FilterBranches(listed, args.query);
            if !OrdersByDate(args) then err == None && branches == filtered
            else match FetchSpec(args.interactive, filtered, getCommit)
              case Failed(e) => err == Some(e)
              case Skipped => err == None && branches == filtered
              case Fetched(commits) =>
                err == None && multiset(branches) == multiset(filtered) && SortedBy(branches, ByRecency(commits))
  {
    var a := SeqToArray(listed);
    var n := a.Length;
    if args.query.Some? {
      n := FilterInPlace(a, BranchMatches(args.query.value));
    }
    assert a[..a.Length] == a[..];
    branches := a[..n];
    err := None;
    if OrdersByDate(args) {
      var m, ok, fetchErr, requested := FetchBranchCommits(args.interactive, branches, getCommit);
      if fetchErr.Some? {
        return branches, fetchErr;
      }
      if ok {
        ByRecencyIsStrictOrder(m);
        SortInPlace(a, n, ByRecency(m));
        branches := a[..n];
      }
    }
  }

  /** The tag half of GitRefs: tags are sorted in place by descending name unless ordering by date. */
  method SelectTags(args: RefsArgs, listed: seq<Tag>) returns (tags: seq<Tag>)
    ensures OrdersByDate(args) ==> tags == listed
    ensures !OrdersByDate(args) ==> multiset(tags) == multiset(listed) && SortedBy(tags, ByNameDescending())
  {
    tags := listed;
    if !OrdersByDate(args) {
      var t := SeqToArray(tags);
      ByNameDescendingIsStrictOrder();
      assert t[..t.Length] == listed;
      SortInPlace(t, t.Length, ByNameDescending());
      assert t[..t.Length] == t[..];
      tags := t[..];
    }
  }

  /**
   * Lists the refs of a repository. `listBranches` and `listTags` are what
   * gitserver's ListBranches and ListTags return, and `getCommit` its
   * GetCommit. The ghost outputs are the branch and tag lists after
   * filtering and ordering.
   */
  method GitRefsQuery(args: RefsArgs, listBranches: Result<seq<Branch>, string>, listTags: Result<seq<Tag>, string>,
                      getCommit: CommitID -> Result<Commit, FetchError>)
    returns (res: Result<GitRefConnection, RefsError>, ghost branchesOut: seq<Branch>, ghost tagsOut: seq<Tag>)
    ensures ListsBranches(args.refType) && listBranches.Failure? ==> res == Failure(ListBranchesFailed(listBranches.error))
    ensures ListsBranches(args.refType) && listBranches.Success? && OrdersByDate(args) ==>
              var filtered := FilterBranches(listBranches.value, args.query);
              match FetchSpec(args.interactive, filtered, getCommit)
              case Failed(e) => res == Failure(GetCommitFailed(e))
              case Skipped => res.Success? ==> branchesOut == filtered
              case Fetched(commits) =>
                res.Success? ==> multiset(branchesOut) == multiset(filtered) && SortedBy(branchesOut, ByRecency(commits))
    ensures ListsBranches(args.refType) && listBranches.Success? && !OrdersByDate(args) && res.Success? ==>
              branchesOut == FilterBranches(listBranches.value, args.query)
    ensures !ListsBranches(args.refType) ==> branchesOut == []
    ensures res.Success? && ListsTags(args.refType) ==>
              listTags.Success? &&
              if OrdersByDate(args) then tagsOut == listTags.value
              else multiset(tagsOut) == multiset(listTags.value) && SortedBy(tagsOut, ByNameDescending())
    ensures !ListsTags(args.refType) ==> tagsOut == []
    ensures res.Failure? && !(ListsBranches(args.refType) && listBranches.Failure?) &&
            !(ListsBranches(args.refType) && OrdersByDate(args) &&
              FetchSpec(args.interactive, FilterBranches(listBranches.value, args.query), getCommit).Failed?) ==>
              ListsTags(args.refType) && listTags.Failure? && res == Failure(ListTagsFailed(listTags.error))
    ensures res.Success? ==>
              res.value.first == args.first && res.value.refs == FilterRefs(Combine(branchesOut, tagsOut), args.query)
  {
    branchesOut, tagsOut := [], [];
    var branches: seq<Branch> := [];
    if ListsBranches(args.refType) {
      if listBranches.Failure? {
        return Failure(ListBranchesFailed(listBranches.error)), branchesOut, tagsOut;
      }
      var err;
      branches, err := SelectBranches(args, listBranches.value, getCommit);
      branchesOut := branches;
      if err.Some? {
        return Failure(GetCommitFailed(err.value)), branchesOut, tagsOut;
      }
    }
    var tags: seq<Tag> := [];
    if ListsTags(args.refType) {
      if listTags.Failure? {
        return Failure(ListTagsFailed(listTags.error)), branchesOut, tagsOut;
      }
      tags := SelectTags(args, listTags.value);
      tagsOut := tags;
    }
    var refs := CombineRefs(branches, tags);
    var count := refs.Length;
    if args.query.Some? {
      count := FilterInPlace(refs, RefMatches(args.query.value));
    }
    assert refs[..refs.Length] == refs[..];
    res := Success(GitRefConnection(args.first, refs[..count]));
  }

  /** A fresh array holding `s`, the backing array of a slice. */
  method SeqToArray<T>(s: seq<T>) returns (a: array<T>)
    ensures fresh(a) && a[..] == s
  {
    a := new T[|s|](i requires 0 <= i < |s| => s[i]);
  }

  /**
   * Branches is GitRefs restricted to branches: the selected branches (`bs`)
   * as refs/heads/ refs, filtered by short name, with `first` kept. The tag
   * listing is never consulted, so it cannot fail the call.
   */
  method Branches(args: RefsArgs, listBranches: Result<seq<Branch>, string>, listTags: Result<seq<Tag>, string>,
                  getCommit: CommitID -> Result<Commit, FetchError>)
    returns (res: Result<GitRefConnection, RefsError>, ghost bs: seq<Branch>)
    ensures listBranches.Failure? ==> res == Failure(ListBranchesFailed(listBranches.error))
    ensures listBranches.Success? && !OrdersByDate(args) ==>
              res.Success? && bs == FilterBranches(listBranches.value, args.query)
    ensures listBranches.Success? && OrdersByDate(args) ==>
              var filtered := FilterBranches(listBranches.value, args.query);
              match FetchSpec(args.interactive, filtered, getCommit)
              case Failed(e) => res == Failure(GetCommitFailed(e))
              case Skipped => res.Success? && bs == filtered
              case Fetched(commits) =>
                res.Success? && multiset(bs) == multiset(filtered) && SortedBy(bs, ByRecency(commits))
    ensures res.Success? ==> res.value.first == args.first && res.value.refs == FilterRefs(BranchRefs(bs), args.query)
    ensures res.Success? ==> forall r :: r in res.value.refs ==> HasPrefix(r.name, HeadsPrefix)
  {
    ghost var ts;
    res, bs, ts := GitRefsQuery(args.(refType := Some(GitBranch)), listBranches, listTags, getCommit);
    assert Combine(bs, ts) == BranchRefs(bs) by {
      assert TagRefs(ts) == [];
    }
    if res.Success? {
      OnlyKind(bs, ts, args.query);
    }
  }

  /**
   * Tags is GitRefs restricted to tags: the selected tags (`ts`) as
   * refs/tags/ refs, filtered by short name, with `first` kept. The branch
   * listing and the commit lookups are never consulted.
   */
  method Tags(args: RefsArgs, listBranches: Result<seq<Branch>, string>, listTags: Result<seq<Tag>, string>,
              getCommit: CommitID -> Result<Commit, FetchError>)
    returns (res: Result<GitRefConnection, RefsError>, ghost ts: seq<Tag>)
    ensures listTags.Failure? ==> res == Failure(ListTagsFailed(listTags.error))
    ensures listTags.Success? ==>
              res.Success? &&
              if OrdersByDate(args) then ts == listTags.value
              else multiset(ts) == multiset(listTags.value) && SortedBy(ts, ByNameDescending())
    ensures res.Success? ==> res.value.first == args.first && res.value.refs == FilterRefs(TagRefs(ts), args.query)
    ensures res.Success? ==> forall r :: r in res.value.refs ==> HasPrefix(r.name, TagsPrefix)
  {
    ghost var bs;
    res, bs, ts := GitRefsQuery(args.(refType := Some(GitTag)), listBranches, listTags, getCommit);
    assert Combine(bs, ts) == TagRefs(ts) by {
      assert BranchRefs(bs) == [];
    }
    if res.Success? {
      OnlyKind(bs, ts, args.query);
    }
  }

  /** A ref of the filtered combination is a branch ref or a tag ref according to the lists it came from. */
  lemma OnlyKind(branches: seq<Branch>, tags: seq<Tag>, query: Option<string>)
    ensures tags == [] ==> forall r :: r in FilterRefs(Combine(branches, tags), query) ==> HasPrefix(r.name, HeadsPrefix)
    ensures branches == [] ==> forall r :: r in FilterRefs(Combine(branches, tags), query) ==> HasPrefix(r.name, TagsPrefix)
  {
    var all := Combine(branches, tags);
    forall r | r in FilterRefs(all, query)
      ensures r in all
    {
      if query.Some? {
        FilterMembership(all, RefMatches(query.value), r);
      }
    }
    forall i | 0 <= i < |all| ensures HasPrefix(all[i].name, if i < |branches| then HeadsPrefix else TagsPrefix) {
      CombineLayout(branches, tags, i);
    }
  }
}
