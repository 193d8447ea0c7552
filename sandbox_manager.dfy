/** The sandbox runner: an environment allow-list, the approved project store, the capped
    audit log written for every run, and the pending-request queue with its approval step.
    The directories are maps from file name to contents; the child process, the temporary
    directory and every write that may fail are outcome values supplied by the caller. */
module SandboxManager {
  import opened Util
  import opened PyText

  // ---------------------------------------------------------------- environment allow-list

  /** Host variables copied into the child's environment when the host has them. */
  const PassThroughVars: seq<string> := ["SYSTEMROOT", "PATH", "TMP", "TEMP"]
  const UnbufferedVar: string := "PYTHONUNBUFFERED"
  const AllowedVars: set<string> := {"SYSTEMROOT", "PATH", "TMP", "TEMP", "PYTHONUNBUFFERED"}

  /** `_safe_env`: only allow-listed variables reach the child, each with the host's value,
      and output is always unbuffered. */
  method SafeEnv(host: map<string, string>) returns (env: map<string, string>)
    ensures env.Keys <= AllowedVars
    ensures UnbufferedVar in env && env[UnbufferedVar] == "1"
    ensures forall k :: k in PassThroughVars ==> (k in env <==> k in host)
    ensures forall k :: k in env && k != UnbufferedVar ==> k in host && env[k] == host[k]
  {
    env := map[];
    for i := 0 to |PassThroughVars|
      invariant forall k :: k in env <==> k in host && k in PassThroughVars[..i]
      invariant forall k :: k in env ==> env[k] == host[k]
    {
      var k := PassThroughVars[i];
      if k in host {
        env := env[k := host[k]];
      }
    }
    assert PassThroughVars[..|PassThroughVars|] == PassThroughVars;
    env := env[UnbufferedVar := "1"];
  }

  // ---------------------------------------------------------------- project names

  /** The name `save_project` stores a file under: the basename, with ".py" appended unless
      it already ends so. */
  function SanitizeProjectName(filename: string): (name: string)
    ensures '/' !in name
    ensures EndsWith(name, ".py")
    ensures StartsWith(name, Basename(filename))
    ensures EndsWith(Basename(filename), ".py") ==> name == Basename(filename)
  {
    var safe := Basename(filename);
    if EndsWith(safe, ".py") then safe else safe + ".py"
  }

  /** Sanitising a sanitised name changes nothing. */
  lemma SanitizeIdempotent(filename: string)
    ensures SanitizeProjectName(SanitizeProjectName(filename)) == SanitizeProjectName(filename)
  {
    BasenameOfPlainName(SanitizeProjectName(filename));
  }

  /** `Path(name).suffix == ".py"`: the last dot starts ".py" and is not the first character. */
  predicate HasPySuffix(name: string) {
    |name| > 3 && EndsWith(name, ".py")
  }

  /** A file name whose basename is empty is stored as ".py", which has no suffix in pathlib's
      sense, so the project listing never shows it; every other saved name is listed. */
  lemma SavedNameListedUnlessBare(filename: string)
    ensures HasPySuffix(SanitizeProjectName(filename)) <==> SanitizeProjectName(filename) != ".py"
  {
    var name := SanitizeProjectName(filename);
    if |name| <= 3 {
      assert |name| == 3 && name[0..] == ".py";
    }
  }

  // ---------------------------------------------------------------- run results and logs

  /** How the child interpreter call ends: it completes (any exit status) with its merged
      output and elapsed time, its timeout expires, or it raises some other exception. */
  datatype ChildOutcome = Completed(stdout: string, elapsed: int) | TimedOut | Faulted(message: string)

  /** What the world does during one run: creating the temporary directory, writing the
      script into it, the child process, writing the log file and removing the directory. */
  datatype Outcomes = Outcomes(mkdtemp: IoStatus, scriptWrite: IoStatus, child: ChildOutcome,
                               logWrite: IoStatus, cleanup: IoStatus)

  /** The result dictionary; a key that the dictionary lacks is None. */
  datatype ExecResult = ExecResult(ok: bool, output: Option<string>, error: Option<string>, elapsed: Option<int>)

  const NotFound: ExecResult := ExecResult(false, None, Some("not found"), None)

  /** The result built from the child's outcome. */
  function ChildResult(child: ChildOutcome): (r: ExecResult)
    ensures r.ok <==> child.Completed?
    ensures r.output.Some? && (r.error.Some? <==> !r.ok)
    ensures r.ok ==> r.output.value == child.stdout && r.elapsed == Some(child.elapsed)
    ensures !r.ok ==> r.output.value == "" && r.elapsed == None
    ensures child.TimedOut? ==> r.error == Some("timeout")
    ensures child.Faulted? ==> r.error == Some(child.message)
  {
    match child
    case Completed(out, t) => ExecResult(true, Some(out), None, Some(t))
    case TimedOut => ExecResult(false, Some(""), Some("timeout"), None)
    case Faulted(msg) => ExecResult(false, Some(""), Some(msg), None)
  }

  /** In `run_code_snippet` the script write sits inside the `try`, so a failed write is
      reported like any other exception. */
  function SnippetResult(w: Outcomes): (r: ExecResult)
    ensures r.output.Some?
    ensures w.scriptWrite.IoFail? ==> !r.ok && r.error == Some(w.scriptWrite.message) && r.output == Some("")
    ensures w.scriptWrite.IoOk? ==> r == ChildResult(w.child)
  {
    ChildResult(if w.scriptWrite.IoFail? then Faulted(w.scriptWrite.message) else w.child)
  }

  datatype LogKind = SnippetRun | ProjectRun

  /** One JSON record in the log directory (its timestamp is not modelled). */
  datatype LogRecord = LogRecord(kind: LogKind, project: Option<string>, ok: bool, error: Option<string>,
                                 elapsed: Option<int>, output: string, codePreview: Option<string>)

  const LogOutputCap: nat := 10000
  const SnippetPreviewCap: nat := 2000
  const RequestPreviewCap: nat := 4000

  function Capped(n: nat, cap: nat): nat {
    if n <= cap then n else cap
  }

  /** The record `run_code_snippet` writes: the result's fields, its output cut to
      10,000 characters and the first 2,000 characters of the code. */
  function SnippetLog(code: string, r: ExecResult): (log: LogRecord)
    requires r.output.Some?
    ensures log.kind == SnippetRun && log.project == None
    ensures log.ok == r.ok && log.error == r.error && log.elapsed == r.elapsed
    ensures log.output <= r.output.value && |log.output| == Capped(|r.output.value|, LogOutputCap)
    ensures log.codePreview.Some? && log.codePreview.value <= code
    ensures |log.codePreview.value| == Capped(|code|, SnippetPreviewCap)
  {
    LogRecord(SnippetRun, None, r.ok, r.error, r.elapsed,
              SliceTo(r.output.value, LogOutputCap), Some(SliceTo(code, SnippetPreviewCap)))
  }

  /** The record `run_project_by_name` writes: the project's name, the result's fields and
      its output cut to 10,000 characters; there is no code preview. */
  function ProjectLog(name: string, r: ExecResult): (log: LogRecord)
    requires r.output.Some?
    ensures log.kind == ProjectRun && log.project == Some(name) && log.codePreview == None
    ensures log.ok == r.ok && log.error == r.error && log.elapsed == r.elapsed
    ensures log.output <= r.output.value && |log.output| == Capped(|r.output.value|, LogOutputCap)
  {
    LogRecord(ProjectRun, Some(name), r.ok, r.error, r.elapsed, SliceTo(r.output.value, LogOutputCap), None)
  }

  // ---------------------------------------------------------------- pending requests

  /** A request descriptor object as `json.loads` gives it back; `codeFullPath` is None when
      the key is missing or null, and otherwise names a file in the pending directory. */
  datatype PendingRequest = PendingRequest(ts: string, name: string, reason: string,
                                           codePreview: string, codeFullPath: Option<string>)

  /** What `json.loads` makes of a file's text: an error, a JSON value that is not an object
      (a list, a string, a number, null), or an object. */
  datatype Decoded = NotJson | NotAnObject | Object(request: PendingRequest)

  /** A file in the pending directory: its text and what that text decodes to. */
  datatype PendingFile = PendingFile(text: string, decoded: Decoded)

  const DescriptorSuffix: string := ".request.json"

  /** The code file name `create_pending_request` builds from its timestamp, random hex and
      the requested name. */
  function CodeFileName(tsName: string, hex: string, name: string): (fname: string)
    ensures EndsWith(fname, ".py")
    ensures StartsWith(fname, tsName + "_" + hex + "_" + name)
  {
    var base := tsName + "_" + hex + "_" + name;
    if EndsWith(base, ".py") then base else base + ".py"
  }

  /** What `create_pending_request` meets: the timestamp in the descriptor and in the file
      name, the random hex, the descriptor's JSON text, what the code itself decodes to, and
      the outcomes of the two writes. */
  datatype Submission = Submission(tsField: string, tsName: string, hex: string, descriptorText: string,
                                   codeDecoded: Decoded, codeWrite: IoStatus, descriptorWrite: IoStatus)

  /** The pending directory after `create_pending_request`, and what it returns. */
  datatype Created = Created(reply: Call<string>, pending: map<string, PendingFile>)

  /** `f` is a descriptor for `code`, submitted under `name` for `reason`, whose code is in `fname`. */
  predicate Describes(f: PendingFile, name: string, reason: string, code: string, fname: string) {
    && f.decoded.Object?
    && f.decoded.request.name == name
    && f.decoded.request.reason == reason
    && f.decoded.request.codePreview <= code
    && |f.decoded.request.codePreview| == Capped(|code|, RequestPreviewCap)
    && f.decoded.request.codeFullPath == Some(fname)
  }

  /** `create_pending_request`: the code goes to its own file and a descriptor with a preview
      of at most 4,000 characters points at it. A name with a separator makes the code file's
      parent a directory that does not exist, so that write raises like any failed write of
      the code file, and nothing is stored. A failed descriptor write raises after the code
      file was written, which stays behind. */
  function CreateStep(pending: map<string, PendingFile>, name: string, code: string, reason: string,
                      w: Submission): (c: Created)
    ensures c.reply.Returns? <==>
      '/' !in CodeFileName(w.tsName, w.hex, name) && w.codeWrite.IoOk? && w.descriptorWrite.IoOk?
    ensures '/' in CodeFileName(w.tsName, w.hex, name) || w.codeWrite.IoFail? ==> c.pending == pending
    ensures '/' !in CodeFileName(w.tsName, w.hex, name) && w.codeWrite.IoOk? && w.descriptorWrite.IoFail? ==>
      c.pending == pending[CodeFileName(w.tsName, w.hex, name) := PendingFile(code, w.codeDecoded)]
    ensures c.reply.Returns? ==>
      var fname := CodeFileName(w.tsName, w.hex, name);
      && c.reply.value == fname + DescriptorSuffix
      && c.pending.Keys == pending.Keys + {fname, c.reply.value}
      && c.pending[fname] == PendingFile(code, w.codeDecoded)
      && c.pending[c.reply.value].text == w.descriptorText
      && Describes(c.pending[c.reply.value], name, reason, code, fname)
      && forall k :: k in pending && k != fname && k != c.reply.value ==> c.pending[k] == pending[k]
  {
    var fname := CodeFileName(w.tsName, w.hex, name);
    if '/' in fname then Created(Raises("No such file or directory"), pending)
    else if w.codeWrite.IoFail? then Created(Raises(w.codeWrite.message), pending)
    else
      var withCode := pending[fname := PendingFile(code, w.codeDecoded)];
      if w.descriptorWrite.IoFail? then Created(Raises(w.descriptorWrite.message), withCode)
      else
        var req := PendingRequest(w.tsField, name, reason, SliceTo(code, RequestPreviewCap), Some(fname));
        assert fname != fname + DescriptorSuffix by {
          assert |fname + DescriptorSuffix| > |fname|;
        }
        Created(Returns(fname + DescriptorSuffix),
                withCode[fname + DescriptorSuffix := PendingFile(w.descriptorText, Object(req))])
  }

  // ---------------------------------------------------------------- approval

  datatype ApproveError = BadRequestFile | CodeFileMissing
  datatype ApproveReply = Approved(approvedPath: string) | Refused(error: ApproveError)

  /** The two directories after `approve_request`, and what it returns. */
  datatype Approval = Approval(reply: Call<ApproveReply>, pending: map<string, PendingFile>, files: map<string, string>)

  /** The descriptor `rf` decodes to an object that names its code file, and that file is
      still pending. */
  predicate Approvable(pending: map<string, PendingFile>, rf: string) {
    && rf in pending
    && pending[rf].decoded.Object?
    && pending[rf].decoded.request.codeFullPath.Some?
    && pending[rf].decoded.request.codeFullPath.value in pending
  }

  /** The descriptor decodes, but `req.get("code_full_path")` or `Path(...)` of it raises: it is
      not an object, or the path is missing or null. */
  predicate ApproveRaisesOn(pending: map<string, PendingFile>, rf: string) {
    && rf in pending
    && (pending[rf].decoded.NotAnObject?
        || (pending[rf].decoded.Object? && pending[rf].decoded.request.codeFullPath.None?))
  }

  /** `approve_request` into the default approved directory. An unreadable or non-JSON
      descriptor and a missing code file are refused; a descriptor that is not an object or
      has no code path raises; a failed move raises. In all of these neither directory
      changes. Otherwise the code file moves into the approved store under the same name, and
      then the descriptor is unlinked; a failure of that unlink is swallowed and leaves the
      descriptor in place. */
  function ApproveStep(pending: map<string, PendingFile>, files: map<string, string>, rf: string,
                       move: IoStatus, unlink: IoStatus): (a: Approval)
    ensures a.reply.Returns? && a.reply.value.Approved? <==> Approvable(pending, rf) && move.IoOk?
    ensures a.reply.Returns? && a.reply.value.Refused? <==>
      !Approvable(pending, rf) && !ApproveRaisesOn(pending, rf)
    ensures a.reply.Raises? <==> ApproveRaisesOn(pending, rf) || (Approvable(pending, rf) && move.IoFail?)
    ensures !(a.reply.Returns? && a.reply.value.Approved?) ==> a.pending == pending && a.files == files
    ensures a.reply.Returns? && a.reply.value.Approved? ==>
      var target := pending[rf].decoded.request.codeFullPath.value;
      && a.reply == Returns(Approved(target))
      && a.files == files[target := pending[target].text]
      && target !in a.pending
      && (unlink.IoOk? ==> rf !in a.pending)
      && (unlink.IoFail? && rf != target ==> rf in a.pending && a.pending[rf] == pending[rf])
      && (forall k :: k in a.pending ==> k in pending && a.pending[k] == pending[k])
      && (forall k :: k in pending && k != target && k != rf ==> k in a.pending)
  {
    if rf !in pending || pending[rf].decoded.NotJson? then
      Approval(Returns(Refused(BadRequestFile)), pending, files)
    else if pending[rf].decoded.NotAnObject? then
      Approval(Raises("object has no attribute 'get'"), pending, files)
    else if pending[rf].decoded.request.codeFullPath.None? then
      Approval(Raises("expected str, bytes or os.PathLike object, not NoneType"), pending, files)
    else
      var target := pending[rf].decoded.request.codeFullPath.value;
      if target !in pending then Approval(Returns(Refused(CodeFileMissing)), pending, files)
      else if move.IoFail? then Approval(Raises(move.message), pending, files)
      else
        var moved := pending - {target};
        var after := if unlink.IoOk? then moved - {rf} else moved;
        Approval(Returns(Approved(target)), after, files[target := pending[target].text])
  }

  /** Once a descriptor has been approved, approving it again is refused, whether or not its
      unlink succeeded the first time. */
  lemma ApproveTwiceRefused(pending: map<string, PendingFile>, files: map<string, string>, rf: string,
                            move1: IoStatus, unlink1: IoStatus, move2: IoStatus, unlink2: IoStatus)
    requires ApproveStep(pending, files, rf, move1, unlink1).reply.Returns?
    requires ApproveStep(pending, files, rf, move1, unlink1).reply.value.Approved?
    ensures var first := ApproveStep(pending, files, rf, move1, unlink1);
      ApproveStep(first.pending, first.files, rf, move2, unlink2).reply.Returns?
      && ApproveStep(first.pending, first.files, rf, move2, unlink2).reply.value.Refused?
  {
    var first := ApproveStep(pending, files, rf, move1, unlink1);
    if rf in first.pending {
      assert first.pending[rf] == pending[rf];
      assert !Approvable(first.pending, rf);
    }
  }

  /** A request just created can be approved at once: its code lands in the approved store
      under the code file's name and both pending files are gone. */
  lemma CreateThenApprove(pending: map<string, PendingFile>, files: map<string, string>, name: string,
                          code: string, reason: string, w: Submission)
    requires CreateStep(pending, name, code, reason, w).reply.Returns?
    ensures var c := CreateStep(pending, name, code, reason, w);
      var a := ApproveStep(c.pending, files, c.reply.value, IoOk, IoOk);
      var fname := CodeFileName(w.tsName, w.hex, name);
      && a.reply == Returns(Approved(fname))
      && a.files == files[fname := code]
      && fname !in a.pending && c.reply.value !in a.pending
  {
    var c := CreateStep(pending, name, code, reason, w);
    assert Approvable(c.pending, c.reply.value);
  }

  // ---------------------------------------------------------------- the sandbox directories

  /** A directory whose entries are plain file names, with no separator in them. */
  predicate FlatNames<V>(dir: map<string, V>) {
    forall k :: k in dir ==> '/' !in k
  }

  lemma ApprovePreservesFlat(pending: map<string, PendingFile>, files: map<string, string>, rf: string,
                             move: IoStatus, unlink: IoStatus)
    requires FlatNames(pending) && FlatNames(files)
    ensures FlatNames(ApproveStep(pending, files, rf, move, unlink).pending)
    ensures FlatNames(ApproveStep(pending, files, rf, move, unlink).files)
  {
  }

  /** `dir` lists every entry of a directory with keys `names`, once each. */
  predicate Lists(dir: seq<string>, names: set<string>) {
    && Distinct(dir)
    && (forall i :: 0 <= i < |dir| ==> dir[i] in names)
    && (forall k :: k in names ==> k in dir)
  }

  datatype ProjectInfo = ProjectInfo(name: string, size: nat)

  /** One entry of `list_pending_requests`: the descriptor's file name and its decoded content. */
  datatype ListedRequest = ListedRequest(requestFile: string, request: PendingRequest)

  /** The selection `list_pending_requests` makes: descriptor-named files that decode to an
      object (for any other JSON value, `**obj` raises inside the loop's `try`). */
  function IsListedRequest(pending: map<string, PendingFile>): string -> bool {
    n => EndsWith(n, DescriptorSuffix) && n in pending && pending[n].decoded.Object?
  }

  /** Basenames that resolve to the approved directory itself or its parent: they exist, but
      reading them as a file raises. */
  predicate NamesADirectory(safe: string) {
    safe == "" || safe == "." || safe == ".."
  }

  /** The sandbox's three directories (approved projects, pending submissions, logs) and the
      number of temporary directories that runs have left behind. */
  class Sandbox {
    var files: map<string, string>
    var pending: map<string, PendingFile>
    var logs: seq<LogRecord>
    var strayTempDirs: nat

    ghost predicate Valid()
      reads this`files, this`pending
    {
      FlatNames(files) && FlatNames(pending)
    }

    /** The directories as the module finds them at import time: `mkdir(exist_ok=True)`
        creates those that are missing and keeps the contents of those that exist. */
    constructor (files: map<string, string>, pending: map<string, PendingFile>, logs: seq<LogRecord>)
      requires FlatNames(files) && FlatNames(pending)
      ensures Valid()
      ensures this.files == files && this.pending == pending && this.logs == logs && strayTempDirs == 0
    {
      this.files, this.pending, this.logs, strayTempDirs := files, pending, logs, 0;
    }

    /** `save_project`: the code is stored under the sanitised name, replacing any earlier
        file; a failed write raises and stores nothing. */
    method SaveProject(filename: string, code: string, write: IoStatus) returns (reply: Call<string>)
      requires Valid()
      modifies this`files
      ensures Valid()
      ensures write.IoOk? ==>
        reply == Returns(SanitizeProjectName(filename)) && files == old(files)[reply.value := code]
      ensures write.IoFail? ==> reply == Raises(write.message) && files == old(files)
    {
      var safe := Basename(filename);
      if !EndsWith(safe, ".py") {
        safe := safe + ".py";
      }
      if write.IoFail? {
        return Raises(write.message);
      }
      files := files[safe := code];
      reply := Returns(safe);
    }

    /** `list_projects` over the directory listed in `order` (newest first): the ".py" files,
        in that order, each with its size. */
    method ListProjects(order: seq<string>) returns (projects: seq<ProjectInfo>)
      requires Lists(order, files.Keys)
      ensures |projects| == |Filter(order, HasPySuffix)|
      ensures forall i :: 0 <= i < |projects| ==>
        && projects[i].name == Filter(order, HasPySuffix)[i]
        && projects[i].name in files
        && projects[i].size == |files[projects[i].name]|
      ensures forall k :: k in files && HasPySuffix(k) ==> exists i :: 0 <= i < |projects| && projects[i].name == k
    {
      projects := [];
      for i := 0 to |order|
        invariant |projects| == |Filter(order[..i], HasPySuffix)|
        invariant forall j :: 0 <= j < |projects| ==>
          && projects[j].name == Filter(order[..i], HasPySuffix)[j]
          && projects[j].name in files
          && projects[j].size == |files[projects[j].name]|
      {
        var name := order[i];
        assert order[..i + 1] == order[..i] + [name];
        FilterAppend(order[..i], name, HasPySuffix);
        if HasPySuffix(name) {
          projects := projects + [ProjectInfo(name, |files[name]|)];
        }
      }
      assert order[..|order|] == order;
      forall k | k in files && HasPySuffix(k)
        ensures exists i :: 0 <= i < |projects| && projects[i].name == k
      {
        var n :| 0 <= n < |order| && order[n] == k;
        var names := Filter(order, HasPySuffix);
        assert k in names;
        var i :| 0 <= i < |names| && names[i] == k;
        assert projects[i].name == k;
      }
    }

    /** `list_pending_requests`: the pending directory listed in descending name order
        (`order`), and every file in it named like a descriptor that decodes to an object, in
        that order, each once. */
    method ListPendingRequests() returns (requests: seq<ListedRequest>, ghost order: seq<string>)
      ensures Lists(order, pending.Keys) && SortedDescending(order)
      ensures |requests| == |Filter(order, IsListedRequest(pending))|
      ensures forall i :: 0 <= i < |requests| ==>
        && requests[i].requestFile == Filter(order, IsListedRequest(pending))[i]
        && EndsWith(requests[i].requestFile, DescriptorSuffix)
        && requests[i].requestFile in pending
        && pending[requests[i].requestFile].decoded == Object(requests[i].request)
      ensures forall i, j :: 0 <= i < j < |requests| ==> requests[i].requestFile != requests[j].requestFile
    {
      var names := SortedNamesDescending(pending.Keys);
      order := names;
      requests := ListedIn(names);
      FilterDistinct(names, IsListedRequest(pending));
      ghost var files := Filter(names, IsListedRequest(pending));
      forall i, j | 0 <= i < j < |requests|
        ensures requests[i].requestFile != requests[j].requestFile
      {
        assert requests[i].requestFile == files[i] && requests[j].requestFile == files[j];
      }
    }

    /** The loop of `list_pending_requests` over the listing `names`. */
    method ListedIn(names: seq<string>) returns (requests: seq<ListedRequest>)
      ensures |requests| == |Filter(names, IsListedRequest(pending))|
      ensures forall i :: 0 <= i < |requests| ==>
        && requests[i].requestFile == Filter(names, IsListedRequest(pending))[i]
        && EndsWith(requests[i].requestFile, DescriptorSuffix)
        && requests[i].requestFile in pending
        && pending[requests[i].requestFile].decoded == Object(requests[i].request)
    {
      requests := [];
      var listed := IsListedRequest(pending);
      for i := 0 to |names|
        invariant |requests| == |Filter(names[..i], listed)|
        invariant forall j :: 0 <= j < |requests| ==>
          && requests[j].requestFile == Filter(names[..i], listed)[j]
          && listed(requests[j].requestFile)
          && pending[requests[j].requestFile].decoded == Object(requests[j].request)
      {
        var name := names[i];
        assert names[..i + 1] == names[..i] + [name];
        FilterAppend(names[..i], name, listed);
        if listed(name) {
          requests := requests + [ListedRequest(name, pending[name].decoded.request)];
        }
      }
      assert names[..|names|] == names;
    }

    /** `run_code_snippet`: once the temporary directory exists, the result depends only on
        the script write and the child, exactly one log record is written unless that write
        fails, and neither a failed log write nor a failed cleanup reaches the caller. */
    method RunCodeSnippet(code: string, w: Outcomes) returns (call: Call<ExecResult>)
      modifies this`logs, this`strayTempDirs
      ensures w.mkdtemp.IoFail? ==>
        call == Raises(w.mkdtemp.message) && logs == old(logs) && strayTempDirs == old(strayTempDirs)
      ensures w.mkdtemp.IoOk? ==>
        && call == Returns(SnippetResult(w))
        && logs == old(logs) + (if w.logWrite.IoOk? then [SnippetLog(code, SnippetResult(w))] else [])
        && strayTempDirs == old(strayTempDirs) + (if w.cleanup.IoFail? then 1 else 0)
    {
      if w.mkdtemp.IoFail? {
        return Raises(w.mkdtemp.message);
      }
      var result;
      if w.scriptWrite.IoFail? {
        result := ExecResult(false, Some(""), Some(w.scriptWrite.message), None);
      } else {
        match w.child
        case Completed(out, elapsed) =>
          result := ExecResult(true, Some(out), None, Some(elapsed));
        case TimedOut =>
          result := ExecResult(false, Some(""), Some("timeout"), None);
        case Faulted(msg) =>
          result := ExecResult(false, Some(""), Some(msg), None);
      }
      // finally: the log write and the cleanup are each wrapped in their own try
      if w.logWrite.IoOk? {
        logs := logs + [SnippetLog(code, result)];
      }
      if w.cleanup.IoFail? {
        strayTempDirs := strayTempDirs + 1;
      }
      call := Returns(result);
    }

    /** `run_project_by_name`. A missing project is reported without running anything or
        logging, and a project file that cannot be read raises before anything is created.
        Unlike `run_code_snippet`, a failed copy of the script is outside the `try` and a
        failed log write is not caught: both raise to the caller and skip the cleanup,
        leaving the temporary directory behind. */
    method RunProjectByName(name: string, read: IoStatus, w: Outcomes) returns (call: Call<ExecResult>)
      modifies this`logs, this`strayTempDirs
      ensures NamesADirectory(Basename(name)) ==>
        call.Raises? && logs == old(logs) && strayTempDirs == old(strayTempDirs)
      ensures !NamesADirectory(Basename(name)) && Basename(name) !in files ==>
        call == Returns(NotFound) && logs == old(logs) && strayTempDirs == old(strayTempDirs)
      ensures !NamesADirectory(Basename(name)) && Basename(name) in files && read.IoFail? ==>
        call == Raises(read.message) && logs == old(logs) && strayTempDirs == old(strayTempDirs)
      ensures !NamesADirectory(Basename(name)) && Basename(name) in files && read.IoOk? ==>
        && (w.mkdtemp.IoFail? ==>
              call == Raises(w.mkdtemp.message) && logs == old(logs) && strayTempDirs == old(strayTempDirs))
        && (w.mkdtemp.IoOk? && w.scriptWrite.IoFail? ==>
              call == Raises(w.scriptWrite.message) && logs == old(logs) && strayTempDirs == old(strayTempDirs) + 1)
        && (w.mkdtemp.IoOk? && w.scriptWrite.IoOk? && w.logWrite.IoFail? ==>
              call == Raises(w.logWrite.message) && logs == old(logs) && strayTempDirs == old(strayTempDirs) + 1)
        && (w.mkdtemp.IoOk? && w.scriptWrite.IoOk? && w.logWrite.IoOk? ==>
              && call == Returns(ChildResult(w.child))
              && logs == old(logs) + [ProjectLog(Basename(name), ChildResult(w.child))]
              && strayTempDirs == old(strayTempDirs) + (if w.cleanup.IoFail? then 1 else 0))
    {
      var safe := Basename(name);
      if NamesADirectory(safe) {
        return Raises("Is a directory");
      }
      if safe !in files {
        return Returns(NotFound);
      }
      if read.IoFail? {
        return Raises(read.message);
      }
      if w.mkdtemp.IoFail? {
        return Raises(w.mkdtemp.message);
      }
      if w.scriptWrite.IoFail? {
        strayTempDirs := strayTempDirs + 1;
        return Raises(w.scriptWrite.message);
      }
      var result := ChildResult(w.child);
      if w.logWrite.IoFail? {
        strayTempDirs := strayTempDirs + 1;
        return Raises(w.logWrite.message);
      }
      logs := logs + [ProjectLog(safe, result)];
      if w.cleanup.IoFail? {
        strayTempDirs := strayTempDirs + 1;
      }
      call := Returns(result);
    }

    /** `create_pending_request`. */
    method CreatePendingRequest(name: string, code: string, reason: string, w: Submission) returns (reply: Call<string>)
      requires Valid()
      modifies this`pending
      ensures Valid()
      ensures Created(reply, pending) == CreateStep(old(pending), name, code, reason, w)
    {
      var fname := w.tsName + "_" + w.hex + "_" + name;
      if !EndsWith(fname, ".py") {
        fname := fname + ".py";
      }
      if '/' in fname {
        return Raises("No such file or directory");
      }
      if w.codeWrite.IoFail? {
        return Raises(w.codeWrite.message);
      }
      pending := pending[fname := PendingFile(code, w.codeDecoded)];
      if w.descriptorWrite.IoFail? {
        return Raises(w.descriptorWrite.message);
      }
      var req := PendingRequest(w.tsField, name, reason, SliceTo(code, RequestPreviewCap), Some(fname));
      var requestFile := fname + DescriptorSuffix;
      assert '/' !in DescriptorSuffix;
      pending := pending[requestFile := PendingFile(w.descriptorText, Object(req))];
      reply := Returns(requestFile);
    }

    /** `approve_request` into the approved store. */
    method ApproveRequest(requestFile: string, move: IoStatus, unlink: IoStatus) returns (reply: Call<ApproveReply>)
      requires Valid()
      modifies this`pending, this`files
      ensures Valid()
      ensures Approval(reply, pending, files) == ApproveStep(old(pending), old(files), requestFile, move, unlink)
    {
      if requestFile !in pending || pending[requestFile].decoded.NotJson? {
        return Returns(Refused(BadRequestFile));
      }
      if pending[requestFile].decoded.NotAnObject? {
        return Raises("object has no attribute 'get'");
      }
      var req := pending[requestFile].decoded.request;
      if req.codeFullPath.None? {
        return Raises("expected str, bytes or os.PathLike object, not NoneType");
      }
      var codePath := req.codeFullPath.value;
      if codePath !in pending {
        return Returns(Refused(CodeFileMissing));
      }
      if move.IoFail? {
        return Raises(move.message);
      }
      files := files[codePath := pending[codePath].text];
      pending := pending - {codePath};
      if unlink.IoOk? {
        pending := pending - {requestFile};
      }
      reply := Returns(Approved(codePath));
    }
  }
}
