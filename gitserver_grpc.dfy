/**
 * The request pipeline of gitserver's gRPC service for Blame, DefaultBranch,
 * MergeBase and ReadFile: field validation, the clone-readiness gate, the
 * sub-repository permission gate, the backend call, the classification of
 * backend errors into a status code with a detail payload, and the pumping
 * of streamed results.
 */
module GitserverGrpc {
  import opened Wrappers

  type RepoName = string

  newtype byte = x: int | 0 <= x < 256

  /** Seconds since Go's zero time (January 1 of year 1, UTC). */
  type Time = int

  const ZeroTime: Time := 0

  // ---------------------------------------------------------------------
  // Statuses and errors

  datatype Code = InvalidArgument | NotFound | PermissionDenied | Internal

  /** The structured detail attached to an error status. */
  datatype Detail =
    | NoDetail
    | RepoNotFoundPayload(repo: RepoName, cloneInProgress: bool, cloneProgress: string)
    | RevisionNotFoundPayload(repo: RepoName, spec: string)
    | FileNotFoundPayload

  datatype RpcError = RpcError(code: Code, message: string, detail: Detail)

  /** The failures the Git backend reports. */
  datatype BackendError =
    | RevisionNotFound(repo: RepoName, spec: string)
    | FileNotExist
    | RepoNotFound(repo: RepoName)
    | OtherBackendError(msg: string)

  /** Maps a backend failure to its status: the known conditions are NotFound with their payload, the rest Internal. */
  function Classify(e: BackendError): (r: RpcError)
    ensures r.code == NotFound <==> !e.OtherBackendError?
    ensures r.code == NotFound || r.code == Internal
    ensures e.RevisionNotFound? ==> r.detail == RevisionNotFoundPayload(e.repo, e.spec)
    ensures e.FileNotExist? ==> r.detail == FileNotFoundPayload
    ensures e.RepoNotFound? ==> r.detail.RepoNotFoundPayload? && r.detail.repo == e.repo
    ensures e.OtherBackendError? ==> r.detail == NoDetail
  {
    match e
    case RevisionNotFound(repo, spec) => RpcError(NotFound, "revision not found", RevisionNotFoundPayload(repo, spec))
    case FileNotExist => RpcError(NotFound, "file not found", FileNotFoundPayload)
    case RepoNotFound(repo) => RpcError(NotFound, "repo not found", RepoNotFoundPayload(repo, false, ""))
    case OtherBackendError(msg) => RpcError(Internal, msg, NoDetail)
  }

  // ---------------------------------------------------------------------
  // Collaborators

  /** What MaybeStartClone reports: whether the repository is ready, and the clone's progress when not. */
  datatype CloneStatus = CloneStatus(ready: bool, cloneInProgress: bool, cloneProgress: string)

  /** The sub-repository permission verdicts the service distinguishes. */
  datatype Perm = NoAccess | Read

  /** A blame hunk as the backend produces it. */
  datatype Hunk = Hunk(commitID: string, authorName: string, authorEmail: string, authorDate: Time,
                       startLine: nat, endLine: nat, message: string, filename: string)

  /** One read from a backend reader: a record, a failure, or the end of the data. */
  datatype ReadStep<T> = Item(value: T) | ReadFailed(err: BackendError) | EndOfData

  /** The Git backend of one repository. */
  datatype Backend = Backend(
    blame: string -> Result<seq<ReadStep<Hunk>>, BackendError>,
    readFile: (string, string) -> Result<seq<ReadStep<seq<byte>>>, BackendError>,
    symbolicRefHead: Result<string, BackendError>,
    revParseHead: Result<string, BackendError>,
    mergeBase: (seq<byte>, seq<byte>) -> Result<string, BackendError>)

  /**
   * The server's collaborators: the clone orchestrator, the sub-repository
   * permission checker (its Enabled flag and its verdict for the calling
   * actor), and the backend resolver.
   */
  datatype Server = Server(
    maybeStartClone: RepoName -> CloneStatus,
    subRepoEnabled: bool,
    permissions: (RepoName, string) -> Result<Perm, string>,
    getBackend: RepoName -> Backend)

  // ---------------------------------------------------------------------
  // Requests and responses

  datatype BlameRequest = BlameRequest(repoName: RepoName, path: string)
  datatype DefaultBranchRequest = DefaultBranchRequest(repoName: RepoName)
  datatype MergeBaseRequest = MergeBaseRequest(repoName: RepoName, base: seq<byte>, head: seq<byte>)
  datatype ReadFileRequest = ReadFileRequest(repoName: RepoName, path: string, commit: string)

  datatype BlameHunkMessage = BlameHunkMessage(commit: string, authorName: string, authorEmail: string, authorDate: Time,
                                               startLine: nat, endLine: nat, message: string, filename: string)
  datatype ReadFileMessage = ReadFileMessage(data: seq<byte>)
  datatype DefaultBranchResponse = DefaultBranchResponse(refName: string, commit: string)
  datatype MergeBaseResponse = MergeBaseResponse(mergeBaseCommitSha: string)

  /** What a streaming call delivers: its messages, then a clean close (None) or one error status. */
  datatype StreamOutcome<M> = StreamOutcome(sent: seq<M>, status: Option<RpcError>)

  function HunkMessage(h: Hunk): BlameHunkMessage {
    BlameHunkMessage(h.commitID, h.authorName, h.authorEmail, h.authorDate, h.startLine, h.endLine, h.message, h.filename)
  }

  function ChunkMessage(data: seq<byte>): ReadFileMessage {
    ReadFileMessage(data)
  }

  // ---------------------------------------------------------------------
  // The gates

  function InvalidArg(msg: string): RpcError {
    RpcError(InvalidArgument, msg, NoDetail)
  }

  /** The first missing field of a Blame request. */
  function ValidateBlame(req: BlameRequest): (r: Option<RpcError>)
    ensures r.None? <==> req.repoName != "" && req.path != ""
    ensures req.repoName == "" ==> r == Some(InvalidArg("repo must be specified"))
    ensures req.repoName != "" && req.path == "" ==> r == Some(InvalidArg("path must be specified"))
  {
    if req.repoName == "" then Some(InvalidArg("repo must be specified"))
    else if req.path == "" then Some(InvalidArg("path must be specified"))
    else None
  }

  function ValidateDefaultBranch(req: DefaultBranchRequest): (r: Option<RpcError>)
    ensures r.None? <==> req.repoName != ""
    ensures req.repoName == "" ==> r == Some(InvalidArg("repo must be specified"))
  {
    if req.repoName == "" then Some(InvalidArg("repo must be specified")) else None
  }

  /** The first missing field of a MergeBase request, in the order repo, base, head. */
  function ValidateMergeBase(req: MergeBaseRequest): (r: Option<RpcError>)
    ensures r.None? <==> req.repoName != "" && |req.base| > 0 && |req.head| > 0
    ensures req.repoName == "" ==> r == Some(InvalidArg("repo must be specified"))
    ensures req.repoName != "" && |req.base| == 0 ==> r == Some(InvalidArg("base must be specified"))
    ensures req.repoName != "" && |req.base| > 0 && |req.head| == 0 ==> r == Some(InvalidArg("head must be specified"))
  {
    if req.repoName == "" then Some(InvalidArg("repo must be specified"))
    else if |req.base| == 0 then Some(InvalidArg("base must be specified"))
    else if |req.head| == 0 then Some(InvalidArg("head must be specified"))
    else None
  }

  /** The first missing field of a ReadFile request, in the order repo, path, commit. */
  function ValidateReadFile(req: ReadFileRequest): (r: Option<RpcError>)
    ensures r.None? <==> req.repoName != "" && req.path != "" && req.commit != ""
    ensures req.repoName == "" ==> r == Some(InvalidArg("repo must be specified"))
    ensures req.repoName != "" && req.path == "" ==> r == Some(InvalidArg("path must be specified"))
    ensures req.repoName != "" && req.path != "" && req.commit == "" ==> r == Some(InvalidArg("commit must be specified"))
  {
    if req.repoName == "" then Some(InvalidArg("repo must be specified"))
    else if req.path == "" then Some(InvalidArg("path must be specified"))
    else if req.commit == "" then Some(InvalidArg("commit must be specified"))
    else None
  }

  const RepoNotClonedMessage: string := "repo not cloned"

  /** Consults MaybeStartClone; a repository that is not ready is NotFound with its clone progress. */
  function CloneGate(server: Server, repo: RepoName): (r: Option<RpcError>)
    ensures r.None? <==> server.maybeStartClone(repo).ready
    ensures r.Some? ==>
              var status := server.maybeStartClone(repo);
              r.value == RpcError(NotFound, RepoNotClonedMessage,
                                  RepoNotFoundPayload(repo, status.cloneInProgress, status.cloneProgress))
  {
    var status := server.maybeStartClone(repo);
    if status.ready then None
    else Some(RpcError(NotFound, RepoNotClonedMessage, RepoNotFoundPayload(repo, status.cloneInProgress, status.cloneProgress)))
  }

  /** With sub-repository permissions enabled, the actor needs Read on the path. */
  function PermissionGate(server: Server, repo: RepoName, path: string): (r: Option<RpcError>)
    ensures !server.subRepoEnabled ==> r == None
    ensures server.subRepoEnabled && server.permissions(repo, path) == Success(Read) ==> r == None
    ensures server.subRepoEnabled && server.permissions(repo, path) == Success(NoAccess) ==>
              r.Some? && r.value.code == PermissionDenied
    ensures server.subRepoEnabled && server.permissions(repo, path).Failure? ==> r.Some? && r.value.code == Internal
  {
    if !server.subRepoEnabled then None
    else match server.permissions(repo, path)
      case Failure(msg) => Some(RpcError(Internal, msg, NoDetail))
      case Success(Read) => None
      case Success(NoAccess) => Some(RpcError(PermissionDenied, "no access to path", NoDetail))
  }

  // ---------------------------------------------------------------------
  // Streaming

  /** What pumping a reader delivers: one message per record up to the first failure or end of data. */
  function Pump<A, M>(steps: seq<ReadStep<A>>, toMessage: A -> M): (r: StreamOutcome<M>)
    ensures |r.sent| <= |steps|
    ensures r.status.Some? ==> r.status.value.code == NotFound || r.status.value.code == Internal
    decreases |steps|
  {
    if |steps| == 0 then StreamOutcome([], None)
    else match steps[0]
      case EndOfData => StreamOutcome([], None)
      case ReadFailed(e) => StreamOutcome([], Some(Classify(e)))
      case Item(x) =>
        var rest := Pump(steps[1..], toMessage);
        StreamOutcome([toMessage(x)] + rest.sent, rest.status)
  }

  /** The index of the first step that is not a record, or |steps|. */
  function FirstNonItem<A>(steps: seq<ReadStep<A>>): (k: nat)
    ensures k <= |steps|
    ensures forall i :: 0 <= i < k ==> steps[i].Item?
    ensures k < |steps| ==> !steps[k].Item?
    decreases |steps|
  {
    if |steps| == 0 || !steps[0].Item? then 0 else 1 + FirstNonItem(steps[1..])
  }

  /**
   * The pump sends the records before the first non-record, in order and
   * translated one by one, and then closes with that step's status: an
   * error for a failure, clean for end of data or an exhausted reader.
   */
  lemma {:induction false} PumpMeaning<A, M>(steps: seq<ReadStep<A>>, toMessage: A -> M)
    ensures var k := FirstNonItem(steps);
            var r := Pump(steps, toMessage);
            |r.sent| == k &&
            (forall i :: 0 <= i < k ==> r.sent[i] == toMessage(steps[i].value)) &&
            (r.status.Some? <==> k < |steps| && steps[k].ReadFailed?) &&
            (r.status.Some? ==> r.status == Some(Classify(steps[k].err)))
    decreases |steps|
  {
    if |steps| > 0 && steps[0].Item? {
      PumpMeaning(steps[1..], toMessage);
    }
  }

  /** Nothing after the first failure or end of data is delivered. */
  lemma {:induction false} PumpStopsAtTerminal<A, M>(steps: seq<ReadStep<A>>, more: seq<ReadStep<A>>, toMessage: A -> M)
    requires FirstNonItem(steps) < |steps|
    ensures Pump(steps + more, toMessage) == Pump(steps, toMessage)
    decreases |steps|
  {
    assert (steps + more)[0] == steps[0];
    if steps[0].Item? {
      assert (steps + more)[1..] == steps[1..] + more;
      PumpStopsAtTerminal(steps[1..], more, toMessage);
    }
  }

  /** Concatenated payload bytes of ReadFile messages. */
  function Payload(msgs: seq<ReadFileMessage>): seq<byte>
    decreases |msgs|
  {
    if |msgs| == 0 then [] else msgs[0].data + Payload(msgs[1..])
  }

  /** Concatenated bytes of the blocks read before the first non-record. */
  function BytesRead(steps: seq<ReadStep<seq<byte>>>): seq<byte>
    decreases |steps|
  {
    if |steps| == 0 || !steps[0].Item? then [] else steps[0].value + BytesRead(steps[1..])
  }

  /** The chunks of a ReadFile stream concatenate to the bytes the backend delivered. */
  lemma {:induction false} ReadFilePayload(steps: seq<ReadStep<seq<byte>>>)
    ensures Payload(Pump(steps, ChunkMessage).sent) == BytesRead(steps)
    decreases |steps|
  {
    if |steps| > 0 && steps[0].Item? {
      ReadFilePayload(steps[1..]);
      var rest := Pump(steps[1..], ChunkMessage).sent;
      assert ([ChunkMessage(steps[0].value)] + rest)[1..] == rest;
    }
  }

  /**
   * The stream pump: reads the backend's reader until end of data or a
   * failure, sending each record as it is read.
   */
  method PumpStream<A, M>(steps: seq<ReadStep<A>>, toMessage: A -> M) returns (sent: seq<M>, status: Option<RpcError>)
    ensures StreamOutcome(sent, status) == Pump(steps, toMessage)
  {
    sent := [];
    var i := 0;
    while i < |steps| && steps[i].Item?
      invariant 0 <= i <= |steps|
      invariant Pump(steps, toMessage) == StreamOutcome(sent + Pump(steps[i..], toMessage).sent, Pump(steps[i..], toMessage).status)
    {
      assert steps[i..][1..] == steps[i + 1..];
      sent := sent + [toMessage(steps[i].value)];
      i := i + 1;
    }
    if i < |steps| && steps[i].ReadFailed? {
      status := Some(Classify(steps[i].err));
    } else {
      status := None;
    }
  }

  // ---------------------------------------------------------------------
  // The four RPCs

  function Fail<M>(e: RpcError): StreamOutcome<M> {
    StreamOutcome([], Some(e))
  }

  /** Blame: validate, clone gate, permission gate, open the blame reader, pump hunks. */
  function Blame(server: Server, req: BlameRequest): (r: StreamOutcome<BlameHunkMessage>)
    ensures ValidateBlame(req).Some? ==> r == Fail(ValidateBlame(req).value)
    ensures ValidateBlame(req).None? && CloneGate(server, req.repoName).Some? ==>
              r == Fail(CloneGate(server, req.repoName).value)
    ensures r.status.Some? && r.status.value.code == PermissionDenied ==> r.sent == []
    ensures ValidateBlame(req).None? && CloneGate(server, req.repoName).None? &&
            PermissionGate(server, req.repoName, req.path).None? &&
            server.getBackend(req.repoName).blame(req.path).Failure? ==>
              r == Fail(Classify(server.getBackend(req.repoName).blame(req.path).error))
  {
    if ValidateBlame(req).Some? then Fail(ValidateBlame(req).value)
    else if CloneGate(server, req.repoName).Some? then Fail(CloneGate(server, req.repoName).value)
    else if PermissionGate(server, req.repoName, req.path).Some? then Fail(PermissionGate(server, req.repoName, req.path).value)
    else
      match server.getBackend(req.repoName).blame(req.path)
      case Failure(e) => Fail(Classify(e))
      case Success(steps) => Pump(steps, HunkMessage)
  }

  /** ReadFile: validate, clone gate, permission gate, open the file reader, pump chunks. */
  function ReadFile(server: Server, req: ReadFileRequest): (r: StreamOutcome<ReadFileMessage>)
    ensures ValidateReadFile(req).Some? ==> r == Fail(ValidateReadFile(req).value)
    ensures ValidateReadFile(req).None? && CloneGate(server, req.repoName).Some? ==>
              r == Fail(CloneGate(server, req.repoName).value)
    ensures r.status.Some? && r.status.value.code == PermissionDenied ==> r.sent == []
    ensures ValidateReadFile(req).None? && CloneGate(server, req.repoName).None? &&
            PermissionGate(server, req.repoName, req.path).None? &&
            server.getBackend(req.repoName).readFile(req.commit, req.path).Failure? ==>
              r == Fail(Classify(server.getBackend(req.repoName).readFile(req.commit, req.path).error))
  {
    if ValidateReadFile(req).Some? then Fail(ValidateReadFile(req).value)
    else if CloneGate(server, req.repoName).Some? then Fail(CloneGate(server, req.repoName).value)
    else if PermissionGate(server, req.repoName, req.path).Some? then Fail(PermissionGate(server, req.repoName, req.path).value)
    else
      match server.getBackend(req.repoName).readFile(req.commit, req.path)
      case Failure(e) => Fail(Classify(e))
      case Success(steps) => Pump(steps, ChunkMessage)
  }

  /** DefaultBranch: validate, clone gate, then the symbolic ref of HEAD and the commit it resolves to. */
  function DefaultBranch(server: Server, req: DefaultBranchRequest): (r: Result<DefaultBranchResponse, RpcError>)
    ensures ValidateDefaultBranch(req).Some? ==> r == Failure(ValidateDefaultBranch(req).value)
    ensures ValidateDefaultBranch(req).None? && CloneGate(server, req.repoName).Some? ==>
              r == Failure(CloneGate(server, req.repoName).value)
    ensures ValidateDefaultBranch(req).None? && CloneGate(server, req.repoName).None? ==>
              var b := server.getBackend(req.repoName);
              (r.Success? <==> b.symbolicRefHead.Success? && b.revParseHead.Success?) &&
              (r.Success? ==> r.value == DefaultBranchResponse(b.symbolicRefHead.value, b.revParseHead.value)) &&
              (b.symbolicRefHead.Failure? ==> r == Failure(Classify(b.symbolicRefHead.error))) &&
              (b.symbolicRefHead.Success? && b.revParseHead.Failure? ==> r == Failure(Classify(b.revParseHead.error)))
  {
    if ValidateDefaultBranch(req).Some? then Failure(ValidateDefaultBranch(req).value)
    else if CloneGate(server, req.repoName).Some? then Failure(CloneGate(server, req.repoName).value)
    else
      var b := server.getBackend(req.repoName);
      match b.symbolicRefHead
      case Failure(e) => Failure(Classify(e))
      case Success(refName) =>
        match b.revParseHead
        case Failure(e) => Failure(Classify(e))
        case Success(commit) => Success(DefaultBranchResponse(refName, commit))
  }

  /** MergeBase: validate, clone gate, then the backend's merge base, returned unchanged. */
  function MergeBase(server: Server, req: MergeBaseRequest): (r: Result<MergeBaseResponse, RpcError>)
    ensures ValidateMergeBase(req).Some? ==> r == Failure(ValidateMergeBase(req).value)
    ensures ValidateMergeBase(req).None? && CloneGate(server, req.repoName).Some? ==>
              r == Failure(CloneGate(server, req.repoName).value)
    ensures ValidateMergeBase(req).None? && CloneGate(server, req.repoName).None? ==>
              var m := server.getBackend(req.repoName).mergeBase(req.base, req.head);
              (m.Success? ==> r == Success(MergeBaseResponse(m.value))) &&
              (m.Failure? ==> r == Failure(Classify(m.error)))
  {
    if ValidateMergeBase(req).Some? then Failure(ValidateMergeBase(req).value)
    else if CloneGate(server, req.repoName).Some? then Failure(CloneGate(server, req.repoName).value)
    else
      match server.getBackend(req.repoName).mergeBase(req.base, req.head)
      case Failure(e) => Failure(Classify(e))
      case Success(sha) => Success(MergeBaseResponse(sha))
  }

  // ---------------------------------------------------------------------
  // Properties of the pipeline

  /** Both servers report the same clone status for `repo`. */
  ghost predicate SameCloneState(s1: Server, s2: Server, repo: RepoName) {
    s1.maybeStartClone(repo) == s2.maybeStartClone(repo)
  }

  /** An invalid request fails the same way whatever the collaborators are: none of them is consulted. */
  lemma ValidationConsultsNothing(s1: Server, s2: Server, blame: BlameRequest, rf: ReadFileRequest,
                                  db: DefaultBranchRequest, mb: MergeBaseRequest)
    ensures ValidateBlame(blame).Some? ==> Blame(s1, blame) == Blame(s2, blame) && Blame(s1, blame).status.value.code == InvalidArgument
    ensures ValidateReadFile(rf).Some? ==> ReadFile(s1, rf) == ReadFile(s2, rf) && ReadFile(s1, rf).status.value.code == InvalidArgument
    ensures ValidateDefaultBranch(db).Some? ==> DefaultBranch(s1, db) == DefaultBranch(s2, db) && DefaultBranch(s1, db).error.code == InvalidArgument
    ensures ValidateMergeBase(mb).Some? ==> MergeBase(s1, mb) == MergeBase(s2, mb) && MergeBase(s1, mb).error.code == InvalidArgument
  {
  }

  /**
   * A repository that is not ready fails every RPC with NotFound, a
   * RepoNotFoundPayload and the "repo not cloned" message, and neither the
   * permission checker nor the backend is consulted.
   */
  lemma NotClonedConsultsNoBackend(s1: Server, s2: Server, blame: BlameRequest, rf: ReadFileRequest,
                                   db: DefaultBranchRequest, mb: MergeBaseRequest)
    requires SameCloneState(s1, s2, blame.repoName) && !s1.maybeStartClone(blame.repoName).ready
    requires SameCloneState(s1, s2, rf.repoName) && !s1.maybeStartClone(rf.repoName).ready
    requires SameCloneState(s1, s2, db.repoName) && !s1.maybeStartClone(db.repoName).ready
    requires SameCloneState(s1, s2, mb.repoName) && !s1.maybeStartClone(mb.repoName).ready
    ensures ValidateBlame(blame).None? ==>
              Blame(s1, blame) == Blame(s2, blame) && Blame(s1, blame).sent == [] &&
              NotClonedError(Blame(s1, blame).status.value)
    ensures ValidateReadFile(rf).None? ==>
              ReadFile(s1, rf) == ReadFile(s2, rf) && ReadFile(s1, rf).sent == [] &&
              NotClonedError(ReadFile(s1, rf).status.value)
    ensures ValidateDefaultBranch(db).None? ==>
              DefaultBranch(s1, db) == DefaultBranch(s2, db) && NotClonedError(DefaultBranch(s1, db).error)
    ensures ValidateMergeBase(mb).None? ==>
              MergeBase(s1, mb) == MergeBase(s2, mb) && NotClonedError(MergeBase(s1, mb).error)
  {
  }

  ghost predicate NotClonedError(e: RpcError) {
    e.code == NotFound && e.detail.RepoNotFoundPayload? && e.message == RepoNotClonedMessage
  }

  /**
   * Enabled permissions with a Read verdict behave as disabled permissions;
   * a NoAccess verdict fails with PermissionDenied before anything is sent.
   */
  lemma PermissionGateOutcomes(server: Server, blame: BlameRequest, rf: ReadFileRequest)
    requires ValidateBlame(blame).None? && server.maybeStartClone(blame.repoName).ready
    requires ValidateReadFile(rf).None? && server.maybeStartClone(rf.repoName).ready
    ensures server.permissions(blame.repoName, blame.path) == Success(Read) ==>
              Blame(server, blame) == Blame(server.(subRepoEnabled := false), blame)
    ensures server.permissions(rf.repoName, rf.path) == Success(Read) ==>
              ReadFile(server, rf) == ReadFile(server.(subRepoEnabled := false), rf)
    ensures server.subRepoEnabled && server.permissions(blame.repoName, blame.path) == Success(NoAccess) ==>
              Blame(server, blame).sent == [] && Blame(server, blame).status.value.code == PermissionDenied
    ensures server.subRepoEnabled && server.permissions(rf.repoName, rf.path) == Success(NoAccess) ==>
              ReadFile(server, rf).sent == [] && ReadFile(server, rf).status.value.code == PermissionDenied
  {
  }

  /** DefaultBranch and MergeBase never consult the permission checker. */
  lemma UnaryCallsIgnorePermissions(server: Server, enabled: bool, perms: (RepoName, string) -> Result<Perm, string>,
                                    db: DefaultBranchRequest, mb: MergeBaseRequest)
    ensures DefaultBranch(server, db) == DefaultBranch(server.(subRepoEnabled := enabled, permissions := perms), db)
    ensures MergeBase(server, mb) == MergeBase(server.(subRepoEnabled := enabled, permissions := perms), mb)
  {
  }

  /**
   * With the gates passed, Blame delivers the translated hunks read before
   * the first failure or end of data, in order; when the reader fails, the
   * classified error closes the stream.
   */
  lemma BlameStreamsHunks(server: Server, req: BlameRequest, steps: seq<ReadStep<Hunk>>)
    requires ValidateBlame(req).None? && server.maybeStartClone(req.repoName).ready
    requires PermissionGate(server, req.repoName, req.path).None?
    requires server.getBackend(req.repoName).blame(req.path) == Success(steps)
    ensures var k := FirstNonItem(steps);
            var r := Blame(server, req);
            |r.sent| == k && (forall i :: 0 <= i < k ==> r.sent[i] == HunkMessage(steps[i].value)) &&
            (r.status.Some? <==> k < |steps| && steps[k].ReadFailed?) &&
            (k < |steps| && steps[k].ReadFailed? ==> r.status == Some(Classify(steps[k].err)))
  {
    PumpMeaning(steps, HunkMessage);
  }

  /**
   * With the gates passed, ReadFile delivers the blocks read before the
   * first failure or end of data, each unchanged in its own message, so the
   * chunks concatenate to the bytes read; a failed read closes the stream
   * with the classified error.
   */
  lemma ReadFileStreamsChunks(server: Server, req: ReadFileRequest, steps: seq<ReadStep<seq<byte>>>)
    requires ValidateReadFile(req).None? && server.maybeStartClone(req.repoName).ready
    requires PermissionGate(server, req.repoName, req.path).None?
    requires server.getBackend(req.repoName).readFile(req.commit, req.path) == Success(steps)
    ensures var k := FirstNonItem(steps);
            var r := ReadFile(server, req);
            |r.sent| == k && (forall i :: 0 <= i < k ==> r.sent[i] == ChunkMessage(steps[i].value)) &&
            Payload(r.sent) == BytesRead(steps) &&
            (r.status.Some? <==> k < |steps| && steps[k].ReadFailed?) &&
            (k < |steps| && steps[k].ReadFailed? ==> r.status == Some(Classify(steps[k].err)))
  {
    PumpMeaning(steps, ChunkMessage);
    ReadFilePayload(steps);
  }

  /** A hunk for commit deadbeef followed by end of data gives exactly one message, then a clean close. */
  lemma BlameSingleHunk(server: Server, req: BlameRequest)
    requires ValidateBlame(req).None? && server.maybeStartClone(req.repoName).ready && !server.subRepoEnabled
    requires server.getBackend(req.repoName).blame(req.path) ==
             Success([Item(Hunk("deadbeef", "", "", ZeroTime, 0, 0, "", "")), EndOfData])
    ensures Blame(server, req) ==
            StreamOutcome([BlameHunkMessage("deadbeef", "", "", ZeroTime, 0, 0, "", "")], None)
  {
    var steps: seq<ReadStep<Hunk>> := [Item(Hunk("deadbeef", "", "", ZeroTime, 0, 0, "", "")), EndOfData];
    assert steps[1..] == [EndOfData];
    assert Pump(steps[1..], HunkMessage) == StreamOutcome([], None);
    assert Pump(steps, HunkMessage).sent == [HunkMessage(steps[0].value)];
  }

  /** A reader yielding "filecontent" gives exactly one chunk with those bytes, then a clean close. */
  lemma ReadFileSingleChunk(server: Server, req: ReadFileRequest, content: seq<byte>)
    requires ValidateReadFile(req).None? && server.maybeStartClone(req.repoName).ready && !server.subRepoEnabled
    requires server.getBackend(req.repoName).readFile(req.commit, req.path) == Success([Item(content), EndOfData])
    ensures ReadFile(server, req) == StreamOutcome([ReadFileMessage(content)], None)
  {
    var steps: seq<ReadStep<seq<byte>>> := [Item(content), EndOfData];
    assert steps[1..] == [EndOfData];
    assert Pump(steps[1..], ChunkMessage) == StreamOutcome([], None);
    assert Pump(steps, ChunkMessage).sent == [ChunkMessage(content)];
  }

  /** A file that does not exist, or a revision that cannot be resolved, is NotFound with the matching payload. */
  lemma ReadFileErrors(server: Server, req: ReadFileRequest)
    requires ValidateReadFile(req).None? && server.maybeStartClone(req.repoName).ready
    requires PermissionGate(server, req.repoName, req.path).None?
    ensures server.getBackend(req.repoName).readFile(req.commit, req.path) == Failure(FileNotExist) ==>
              ReadFile(server, req).sent == [] &&
              ReadFile(server, req).status == Some(RpcError(NotFound, "file not found", FileNotFoundPayload))
    ensures forall repo, spec :: server.getBackend(req.repoName).readFile(req.commit, req.path) == Failure(RevisionNotFound(repo, spec)) ==>
              ReadFile(server, req).sent == [] && ReadFile(server, req).status.value.code == NotFound &&
              ReadFile(server, req).status.value.detail == RevisionNotFoundPayload(repo, spec)
  {
  }
}
