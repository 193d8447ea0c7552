/** The idle scheduler: a loop that, once nothing has happened for long enough, runs either
    the approved projects or the disposable autotasks in the pending directory, at most a
    configured number per cycle, generating trivial tasks when none are queued. Time, the
    random template choice and every outcome of the sandbox are supplied per iteration. */
module SandboxAutorun {
  import opened Util
  import opened PyText
  import opened SandboxManager

  datatype Mode = Projects | Autotasks | OtherMode(name: string)

  /** `AUTORUN_CONFIG`, with the idle threshold and poll interval in whole seconds. */
  datatype Config = Config(enabled: bool, idleSeconds: int, loopInterval: int, mode: Mode,
                           maxRunsPerCycle: int, generateTasks: bool)

  const DefaultConfig: Config := Config(true, 200, 20, Autotasks, 2, true)

  // ---------------------------------------------------------------- task generation

  type TemplateIndex = i: int | 0 <= i < 4

  const ClockTemplatePrefix: string := "print('Gary idle task executed at "

  /** The four task bodies `generate_autotask_file` chooses from; the last one embeds the
      wall-clock time as "%H:%M:%S". */
  function Template(i: TemplateIndex, clock: string): (code: string)
    ensures IsTemplate(code)
  {
    [ "print('Hello from Gary!')",
      "x = sum(range(10)); print('Sum 0-9 =', x)",
      "for i in range(3): print('Task iteration', i)",
      ClockTemplatePrefix + clock + "')" ][i]
  }

  predicate IsTemplate(code: string) {
    || code == "print('Hello from Gary!')"
    || code == "x = sum(range(10)); print('Sum 0-9 =', x)"
    || code == "for i in range(3): print('Task iteration', i)"
    || (StartsWith(code, ClockTemplatePrefix) && EndsWith(code, "')"))
  }

  /** The names `PENDING_DIR.glob("autotask_*.py")` matches. */
  predicate IsAutotaskName(name: string) {
    |name| >= 12 && StartsWith(name, "autotask_") && EndsWith(name, ".py")
  }

  /** `autotask_<ms>.py`, where `ms` is the epoch time in milliseconds. */
  function AutotaskName(ms: nat): (name: string)
    ensures IsAutotaskName(name)
    ensures '/' !in name
  {
    var digits := NatToString(ms);
    var name := "autotask_" + digits + ".py";
    assert name[..9] == "autotask_";
    assert name[|name| - 3..] == ".py";
    assert forall k :: 9 <= k < 9 + |digits| ==> name[k] == digits[k - 9];
    name
  }

  /** What one call of `generate_autotask_file` meets: the clock in milliseconds, the
      random template index, the clock as "%H:%M:%S", and the outcome of the write. */
  datatype Generation = Generation(ms: nat, choice: TemplateIndex, clock: string, write: IoStatus)

  /** Only fresh autotask files holding a template (which is not JSON) are added or replaced. */
  predicate OnlyTemplatesAdded(before: map<string, PendingFile>, after: map<string, PendingFile>) {
    && before.Keys <= after.Keys
    && forall k :: k in after && (k !in before || after[k] != before[k]) ==>
         IsAutotaskName(k) && IsTemplate(after[k].text) && after[k].decoded == NotJson
  }

  /** The pending directory after one `generate_autotask_file`: a failed write is swallowed;
      two calls in the same millisecond write the same file. */
  function GenerateStep(pending: map<string, PendingFile>, g: Generation): (after: map<string, PendingFile>)
    ensures OnlyTemplatesAdded(pending, after)
    ensures g.write.IoOk? ==> AutotaskName(g.ms) in after && after[AutotaskName(g.ms)].text == Template(g.choice, g.clock)
    ensures g.write.IoFail? ==> after == pending
  {
    if g.write.IoOk? then pending[AutotaskName(g.ms) := PendingFile(Template(g.choice, g.clock), NotJson)]
    else pending
  }

  /** The pending directory after the first `n` generation calls. */
  ghost function AfterGenerations(pending: map<string, PendingFile>, gens: nat -> Generation, n: nat): map<string, PendingFile>
  {
    if n == 0 then pending else GenerateStep(AfterGenerations(pending, gens, n - 1), gens(n - 1))
  }

  /** A run of generation calls only adds or replaces autotask files holding a template, and
      every file a successful call wrote is there at the end. */
  lemma {:induction false} GenerationsAddTemplates(pending: map<string, PendingFile>, gens: nat -> Generation, n: nat)
    ensures OnlyTemplatesAdded(pending, AfterGenerations(pending, gens, n))
    ensures forall i :: 0 <= i < n && gens(i).write.IoOk? ==> AutotaskName(gens(i).ms) in AfterGenerations(pending, gens, n)
  {
    if n > 0 {
      GenerationsAddTemplates(pending, gens, n - 1);
    }
  }

  /** `generate_autotask_file`. */
  method GenerateAutotaskFile(sandbox: Sandbox, g: Generation)
    requires sandbox.Valid()
    modifies sandbox`pending
    ensures sandbox.Valid()
    ensures sandbox.pending == GenerateStep(old(sandbox.pending), g)
  {
    if g.write.IoOk? {
      sandbox.pending := sandbox.pending[AutotaskName(g.ms) := PendingFile(Template(g.choice, g.clock), NotJson)];
    }
  }

  /** The generation step of an autotask cycle: `count` calls of `generate_autotask_file`,
      none for a count below one. */
  method GenerateTasks(sandbox: Sandbox, count: int, gens: nat -> Generation)
    requires sandbox.Valid()
    modifies sandbox`pending
    ensures sandbox.Valid()
    ensures sandbox.pending == AfterGenerations(old(sandbox.pending), gens, if count > 0 then count else 0)
  {
    var n := if count > 0 then count else 0;
    for i := 0 to n
      invariant sandbox.Valid()
      invariant sandbox.pending == AfterGenerations(old(sandbox.pending), gens, i)
    {
      GenerateAutotaskFile(sandbox, gens(i));
    }
  }

  // ---------------------------------------------------------------- running a batch

  /** How many of the first `n` indices satisfy `p`. */
  function CountWhere(p: nat -> bool, n: nat): (c: nat)
    ensures c <= n
  {
    if n == 0 then 0 else CountWhere(p, n - 1) + (if p(n - 1) then 1 else 0)
  }

  /** The count is the whole range when every index qualifies, and zero when none does. */
  lemma {:induction false} CountWhereExtremes(p: nat -> bool, n: nat)
    ensures (forall i: nat :: i < n ==> p(i)) ==> CountWhere(p, n) == n
    ensures (forall i: nat :: i < n ==> !p(i)) ==> CountWhere(p, n) == 0
  {
    if n > 0 {
      CountWhereExtremes(p, n - 1);
    }
  }

  /** The number of items a cycle attempts from a batch of `len` cut to `max` items: all of
      them, except that a limit below zero stops the loop after its first item. */
  function Attempted(len: nat, max: int): (n: nat)
    ensures n <= len && (len > 0 ==> n > 0)
    ensures max >= 0 ==> n == len
  {
    if max < 0 && len > 0 then 1 else len
  }

  /** What running one listed project meets: reading its file, then the run itself. */
  datatype ProjectAttempt = ProjectAttempt(read: IoStatus, run: Outcomes)

  /** `run_project_by_name` returns (rather than raises) for a listed project exactly when
      the read, the temporary directory, the script copy and the log write all succeed. */
  predicate ProjectRunReturns(a: ProjectAttempt) {
    a.read.IoOk? && a.run.mkdtemp.IoOk? && a.run.scriptWrite.IoOk? && a.run.logWrite.IoOk?
  }

  /** The run of a listed project leaves its temporary directory behind: it was created, and
      then the copy or the log write raised, or the cleanup failed. */
  predicate ProjectLeavesTempDir(a: ProjectAttempt) {
    && a.read.IoOk? && a.run.mkdtemp.IoOk?
    && (a.run.scriptWrite.IoFail? || a.run.logWrite.IoFail? || a.run.cleanup.IoFail?)
  }

  function ProjectReturnsAt(runsOf: nat -> ProjectAttempt): nat -> bool {
    (i: nat) => ProjectRunReturns(runsOf(i))
  }

  function ProjectLeavesAt(runsOf: nat -> ProjectAttempt): nat -> bool {
    (i: nat) => ProjectLeavesTempDir(runsOf(i))
  }

  /** The log records the first `n` project runs of a batch write, in order. */
  ghost function ProjectLogs(batch: seq<string>, runsOf: nat -> ProjectAttempt, n: nat): seq<LogRecord>
    requires n <= |batch|
  {
    if n == 0 then []
    else ProjectLogs(batch, runsOf, n - 1)
         + (if ProjectRunReturns(runsOf(n - 1)) then [ProjectLog(batch[n - 1], ChildResult(runsOf(n - 1).run.child))] else [])
  }

  /** One project of the loop: `run_project_by_name` on a listed project returns exactly when
      its run gets through the read, the copy and the log write, and then it has appended
      that project's record. */
  method RunProject(sandbox: Sandbox, name: string, a: ProjectAttempt) returns (returned: bool)
    requires sandbox.Valid()
    requires name in sandbox.files && HasPySuffix(name)
    modifies sandbox`logs, sandbox`strayTempDirs
    ensures returned <==> ProjectRunReturns(a)
    ensures sandbox.logs == old(sandbox.logs) + (if returned then [ProjectLog(name, ChildResult(a.run.child))] else [])
    ensures sandbox.strayTempDirs == old(sandbox.strayTempDirs) + (if ProjectLeavesTempDir(a) then 1 else 0)
  {
    BasenameOfPlainName(name);
    var call := sandbox.RunProjectByName(name, a.read, a.run);
    returned := call.Returns?;
  }

  /** The projects loop of a firing cycle: each project is run; one whose run raises is
      skipped without counting; the loop stops once `runs` reaches the limit. */
  method RunProjects(sandbox: Sandbox, batch: seq<string>, max: int, runsOf: nat -> ProjectAttempt)
    returns (runs: int, ghost attempted: nat)
    requires sandbox.Valid()
    requires forall i :: 0 <= i < |batch| ==> batch[i] in sandbox.files && HasPySuffix(batch[i])
    requires max < 0 || |batch| <= max
    modifies sandbox`logs, sandbox`strayTempDirs
    ensures attempted == Attempted(|batch|, max)
    ensures runs == CountWhere(ProjectReturnsAt(runsOf), attempted)
    ensures if max >= 0 then runs <= max else runs <= 1
    ensures sandbox.logs == old(sandbox.logs) + ProjectLogs(batch, runsOf, attempted)
    ensures sandbox.strayTempDirs == old(sandbox.strayTempDirs) + CountWhere(ProjectLeavesAt(runsOf), attempted)
  {
    runs := 0;
    var i := 0;
    while i < |batch|
      invariant 0 <= i <= |batch|
      invariant runs == CountWhere(ProjectReturnsAt(runsOf), i)
      invariant i > 1 ==> max > 0
      invariant max >= 0 ==> runs <= max
      invariant sandbox.logs == old(sandbox.logs) + ProjectLogs(batch, runsOf, i)
      invariant sandbox.strayTempDirs == old(sandbox.strayTempDirs) + CountWhere(ProjectLeavesAt(runsOf), i)
      invariant sandbox.files == old(sandbox.files)
    {
      // the check that closes each pass of the loop, made before the next one
      if i > 0 && runs >= max {
        break;
      }
      var returned := RunProject(sandbox, batch[i], runsOf(i));
      if returned {
        runs := runs + 1;
      }
      i := i + 1;
    }
    attempted := i;
  }

  /** What one autotask meets: reading its file, the sandbox run, and unlinking the file. */
  datatype TaskAttempt = TaskAttempt(read: IoStatus, run: Outcomes, unlink: IoStatus)

  /** A task is consumed when it was read, `run_code_snippet` returned, and the unlink worked. */
  predicate Consumes(t: TaskAttempt) {
    t.read.IoOk? && t.run.mkdtemp.IoOk? && t.unlink.IoOk?
  }

  /** A task's run writes its log record when the task was read, the temporary directory
      was created and the log write succeeded. */
  predicate TaskLogged(t: TaskAttempt) {
    t.read.IoOk? && t.run.mkdtemp.IoOk? && t.run.logWrite.IoOk?
  }

  /** A task's run leaves its temporary directory behind when the cleanup fails. */
  predicate TaskLeavesTempDir(t: TaskAttempt) {
    t.read.IoOk? && t.run.mkdtemp.IoOk? && t.run.cleanup.IoFail?
  }

  function ConsumesAt(attempts: nat -> TaskAttempt): nat -> bool {
    (i: nat) => Consumes(attempts(i))
  }

  function TaskLeavesAt(attempts: nat -> TaskAttempt): nat -> bool {
    (i: nat) => TaskLeavesTempDir(attempts(i))
  }

  /** The log records the first `n` autotasks of a batch write, each with the code its file
      held in `pending`, in order. */
  ghost function TaskLogs(pending: map<string, PendingFile>, batch: seq<string>, attempts: nat -> TaskAttempt,
                          n: nat): seq<LogRecord>
    requires n <= |batch|
    requires forall i :: 0 <= i < n ==> batch[i] in pending
  {
    if n == 0 then []
    else TaskLogs(pending, batch, attempts, n - 1)
         + (if TaskLogged(attempts(n - 1)) then [SnippetLog(pending[batch[n - 1]].text, SnippetResult(attempts(n - 1).run))] else [])
  }

  /** One autotask of the loop: read it, run it as a snippet, then unlink it; the file is
      removed only when all three succeed, and any raise leaves it in place. */
  method RunAutotask(sandbox: Sandbox, task: string, attempt: TaskAttempt) returns (consumed: bool)
    requires sandbox.Valid()
    requires task in sandbox.pending
    modifies sandbox`pending, sandbox`logs, sandbox`strayTempDirs
    ensures sandbox.Valid()
    ensures consumed <==> Consumes(attempt)
    ensures sandbox.pending == if consumed then old(sandbox.pending) - {task} else old(sandbox.pending)
    ensures sandbox.logs == old(sandbox.logs) +
      (if TaskLogged(attempt) then [SnippetLog(old(sandbox.pending)[task].text, SnippetResult(attempt.run))] else [])
    ensures sandbox.strayTempDirs == old(sandbox.strayTempDirs) + (if TaskLeavesTempDir(attempt) then 1 else 0)
  {
    consumed := false;
    if attempt.read.IoOk? {
      var code := sandbox.pending[task].text;
      var call := sandbox.RunCodeSnippet(code, attempt.run);
      if call.Returns? && attempt.unlink.IoOk? {
        sandbox.pending := sandbox.pending - {task};
        consumed := true;
      }
    }
  }

  /** The files among the first `n` of the batch that their attempts consume. */
  ghost function ConsumedTasks(batch: seq<string>, attempts: nat -> TaskAttempt, n: nat): set<string>
    requires n <= |batch|
  {
    if n == 0 then {}
    else ConsumedTasks(batch, attempts, n - 1) + (if Consumes(attempts(n - 1)) then {batch[n - 1]} else {})
  }

  /** In a batch without repeats, a file is among the consumed ones exactly when it is one
      of the first `n` and its attempt consumes it. */
  lemma {:induction false} ConsumedTasksMembers(batch: seq<string>, attempts: nat -> TaskAttempt, n: nat)
    requires n <= |batch|
    requires Distinct(batch)
    ensures forall j :: 0 <= j < |batch| ==>
      (batch[j] in ConsumedTasks(batch, attempts, n) <==> j < n && Consumes(attempts(j)))
    ensures forall k :: k in ConsumedTasks(batch, attempts, n) ==> k in batch
  {
    if n > 0 {
      ConsumedTasksMembers(batch, attempts, n - 1);
    }
  }

  /** The `i`-th autotask of the loop, run against the pending directory `pending0` the loop
      started from: it removes that file exactly when the attempt consumes it, and logs the
      code the file held at the start. */
  method RunAutotaskAt(sandbox: Sandbox, batch: seq<string>, attempts: nat -> TaskAttempt, i: nat,
                       ghost pending0: map<string, PendingFile>) returns (consumed: bool)
    requires sandbox.Valid()
    requires Distinct(batch) && i < |batch|
    requires forall j :: 0 <= j < |batch| ==> batch[j] in pending0
    requires sandbox.pending == pending0 - ConsumedTasks(batch, attempts, i)
    modifies sandbox`pending, sandbox`logs, sandbox`strayTempDirs
    ensures sandbox.Valid()
    ensures consumed <==> Consumes(attempts(i))
    ensures sandbox.pending == pending0 - ConsumedTasks(batch, attempts, i + 1)
    ensures sandbox.logs == old(sandbox.logs) + (if TaskLogged(attempts(i))
      then [SnippetLog(pending0[batch[i]].text, SnippetResult(attempts(i).run))] else [])
    ensures sandbox.strayTempDirs == old(sandbox.strayTempDirs) + (if TaskLeavesTempDir(attempts(i)) then 1 else 0)
  {
    ConsumedTasksMembers(batch, attempts, i);
    assert batch[i] in sandbox.pending && sandbox.pending[batch[i]] == pending0[batch[i]];
    consumed := RunAutotask(sandbox, batch[i], attempts(i));
  }

  /** The autotask loop of a firing cycle: a task file is deleted only after its run has
      returned, and each deletion counts one run; a task whose read, run or unlink raises
      stays in place and does not count. No other pending file is touched. */
  method RunAutotasks(sandbox: Sandbox, batch: seq<string>, max: int, attempts: nat -> TaskAttempt)
    returns (runs: int, ghost attempted: nat)
    requires sandbox.Valid()
    requires Distinct(batch)
    requires forall i :: 0 <= i < |batch| ==> batch[i] in sandbox.pending
    requires max < 0 || |batch| <= max
    modifies sandbox`pending, sandbox`logs, sandbox`strayTempDirs
    ensures sandbox.Valid()
    ensures attempted == Attempted(|batch|, max)
    ensures runs == CountWhere(ConsumesAt(attempts), attempted)
    ensures if max >= 0 then runs <= max else runs <= 1
    ensures sandbox.pending == old(sandbox.pending) - ConsumedTasks(batch, attempts, attempted)
    ensures forall i :: 0 <= i < |batch| ==>
      (batch[i] !in sandbox.pending <==> i < attempted && Consumes(attempts(i)))
    ensures forall k :: k in old(sandbox.pending) && k !in batch ==> k in sandbox.pending
    ensures sandbox.logs == old(sandbox.logs) + TaskLogs(old(sandbox.pending), batch, attempts, attempted)
    ensures sandbox.strayTempDirs == old(sandbox.strayTempDirs) + CountWhere(TaskLeavesAt(attempts), attempted)
  {
    runs := 0;
    var i := 0;
    while i < |batch|
      invariant 0 <= i <= |batch|
      invariant sandbox.Valid()
      invariant runs == CountWhere(ConsumesAt(attempts), i)
      invariant i > 1 ==> max > 0
      invariant max >= 0 ==> runs <= max
      invariant sandbox.pending == old(sandbox.pending) - ConsumedTasks(batch, attempts, i)
      invariant sandbox.logs == old(sandbox.logs) + TaskLogs(old(sandbox.pending), batch, attempts, i)
      invariant sandbox.strayTempDirs == old(sandbox.strayTempDirs) + CountWhere(TaskLeavesAt(attempts), i)
    {
      // the check that closes each pass of the loop, made before the next one
      if i > 0 && runs >= max {
        break;
      }
      var consumed := RunAutotaskAt(sandbox, batch, attempts, i, old(sandbox.pending));
      assert ConsumesAt(attempts)(i) == Consumes(attempts(i));
      assert TaskLeavesAt(attempts)(i) == TaskLeavesTempDir(attempts(i));
      if consumed {
        runs := runs + 1;
      }
      i := i + 1;
    }
    attempted := i;
    assert forall j :: 0 <= j < |batch| ==>
      (batch[j] !in sandbox.pending <==> j < attempted && Consumes(attempts(j))) by {
      ConsumedTasksMembers(batch, attempts, attempted);
    }
    assert forall k :: k in old(sandbox.pending) && k !in batch ==> k in sandbox.pending by {
      ConsumedTasksMembers(batch, attempts, attempted);
    }
  }

  // ---------------------------------------------------------------- the two kinds of cycle

  /** What a firing pass saw: how many tasks it generated, the pending directory after that,
      the listing it selected from, the batch it cut from the listing and how many of the
      batch it attempted. */
  datatype Trace = Trace(generated: nat, mid: map<string, PendingFile>, listing: seq<string>,
                         batch: seq<string>, attempted: nat)

  /** A firing cycle in projects mode: the listed projects, cut to the first `max`, are run. */
  method ProjectsCycle(sandbox: Sandbox, max: int, runsOf: nat -> ProjectAttempt) returns (runs: int, ghost tr: Trace)
    requires sandbox.Valid()
    modifies sandbox`logs, sandbox`strayTempDirs
    ensures tr.generated == 0 && tr.mid == sandbox.pending
    ensures Lists(tr.listing, sandbox.files.Keys)
    ensures tr.batch == SliceTo(Filter(tr.listing, HasPySuffix), max)
    ensures tr.attempted == Attempted(|tr.batch|, max)
    ensures runs == CountWhere(ProjectReturnsAt(runsOf), tr.attempted)
    ensures 0 <= runs && if max >= 0 then runs <= max else runs <= 1
    ensures sandbox.logs == old(sandbox.logs) + ProjectLogs(tr.batch, runsOf, tr.attempted)
    ensures sandbox.strayTempDirs == old(sandbox.strayTempDirs) + CountWhere(ProjectLeavesAt(runsOf), tr.attempted)
  {
    var order := Enumerate(sandbox.files.Keys);
    var projects := sandbox.ListProjects(order);
    var names := seq(|projects|, i requires 0 <= i < |projects| => projects[i].name);
    assert names == Filter(order, HasPySuffix);
    var batch := SliceTo(names, max);
    ghost var attempted;
    runs, attempted := RunProjects(sandbox, batch, max, runsOf);
    tr := Trace(0, sandbox.pending, order, batch, attempted);
  }

  /** `sorted(PENDING_DIR.glob("autotask_*.py"))`: the queued autotask files, once each, in
      ascending name order. */
  method QueuedAutotasks(sandbox: Sandbox) returns (tasks: seq<string>)
    ensures SortedStrictly(tasks)
    ensures forall k :: k in tasks <==> k in sandbox.pending && IsAutotaskName(k)
    ensures Distinct(tasks)
    ensures tasks == [] <==> !HasAutotask(sandbox.pending)
  {
    tasks := SortedNames(set k | k in sandbox.pending && IsAutotaskName(k));
    SortedDistinct(tasks);
    if tasks != [] {
      assert tasks[0] in tasks;
    }
  }

  /** The queue an autotasks cycle works from: when no autotask is queued and generation is
      on, `max` generation calls are made first and the directory is listed again. */
  method PrepareAutotasks(sandbox: Sandbox, max: int, generate: bool, gens: nat -> Generation)
    returns (tasks: seq<string>, ghost generated: nat)
    requires sandbox.Valid()
    modifies sandbox`pending
    ensures sandbox.Valid()
    ensures generated == if generate && !HasAutotask(old(sandbox.pending)) && max > 0 then max else 0
    ensures sandbox.pending == AfterGenerations(old(sandbox.pending), gens, generated)
    ensures SortedStrictly(tasks) && Distinct(tasks)
    ensures forall k :: k in tasks <==> k in sandbox.pending && IsAutotaskName(k)
  {
    generated := 0;
    tasks := QueuedAutotasks(sandbox);
    if tasks == [] && generate {
      GenerateTasks(sandbox, max, gens);
      generated := if max > 0 then max else 0;
      tasks := QueuedAutotasks(sandbox);
    }
  }

  /** A batch cut from a queue of distinct pending files is itself distinct and pending. */
  lemma BatchOfQueue(tasks: seq<string>, max: int, pending: map<string, PendingFile>)
    requires Distinct(tasks)
    requires forall k :: k in tasks ==> k in pending
    ensures Distinct(SliceTo(tasks, max))
    ensures forall i :: 0 <= i < |SliceTo(tasks, max)| ==> SliceTo(tasks, max)[i] in pending
  {
    var batch := SliceTo(tasks, max);
    assert forall i :: 0 <= i < |batch| ==> batch[i] == tasks[i];
  }

  /** A firing cycle in autotasks mode: the queue, in name order and cut to the first `max`,
      is run. */
  method AutotasksCycle(sandbox: Sandbox, max: int, generate: bool, gens: nat -> Generation,
                        attempts: nat -> TaskAttempt)
    returns (runs: int, ghost tr: Trace)
    requires sandbox.Valid()
    modifies sandbox`pending, sandbox`logs, sandbox`strayTempDirs
    ensures sandbox.Valid()
    ensures tr.generated == if generate && !HasAutotask(old(sandbox.pending)) && max > 0 then max else 0
    ensures tr.mid == AfterGenerations(old(sandbox.pending), gens, tr.generated)
    ensures SortedStrictly(tr.listing) && forall k :: k in tr.listing <==> k in tr.mid && IsAutotaskName(k)
    ensures tr.batch == SliceTo(tr.listing, max)
    ensures forall i :: 0 <= i < |tr.batch| ==> tr.batch[i] in tr.mid
    ensures tr.attempted == Attempted(|tr.batch|, max)
    ensures runs == CountWhere(ConsumesAt(attempts), tr.attempted)
    ensures 0 <= runs && if max >= 0 then runs <= max else runs <= 1
    ensures sandbox.pending == tr.mid - ConsumedTasks(tr.batch, attempts, tr.attempted)
    ensures sandbox.logs == old(sandbox.logs) + TaskLogs(tr.mid, tr.batch, attempts, tr.attempted)
    ensures sandbox.strayTempDirs == old(sandbox.strayTempDirs) + CountWhere(TaskLeavesAt(attempts), tr.attempted)
  {
    var tasks, generated := PrepareAutotasks(sandbox, max, generate, gens);
    ghost var mid := sandbox.pending;
    var batch := SliceTo(tasks, max);
    BatchOfQueue(tasks, max, mid);
    ghost var attempted;
    runs, attempted := RunAutotasks(sandbox, batch, max, attempts);
    tr := Trace(generated, mid, tasks, batch, attempted);
  }

  /** An autotasks cycle only adds, replaces or removes autotask files: every other pending
      file is as it was. */
  lemma AutotasksCycleKeepsOthers(before: map<string, PendingFile>, gens: nat -> Generation, generated: nat,
                                  batch: seq<string>, attempts: nat -> TaskAttempt, attempted: nat, k: string)
    requires attempted <= |batch|
    requires forall i :: 0 <= i < |batch| ==> IsAutotaskName(batch[i])
    requires !IsAutotaskName(k)
    ensures var after := AfterGenerations(before, gens, generated) - ConsumedTasks(batch, attempts, attempted);
      (k in after <==> k in before) && (k in after ==> after[k] == before[k])
  {
    GenerationsAddTemplates(before, gens, generated);
    ConsumedTasksOfBatch(batch, attempts, attempted);
  }

  /** Only batch files are ever consumed. */
  lemma {:induction false} ConsumedTasksOfBatch(batch: seq<string>, attempts: nat -> TaskAttempt, n: nat)
    requires n <= |batch|
    ensures forall k :: k in ConsumedTasks(batch, attempts, n) ==> k in batch[..n]
  {
    if n > 0 {
      ConsumedTasksOfBatch(batch, attempts, n - 1);
      assert batch[..n] == batch[..n - 1] + [batch[n - 1]];
    }
  }

  // ---------------------------------------------------------------- one iteration and the loop

  /** What one pass of the loop meets: the clock, whether the directory scan raises, the
      generation inputs, the outcomes of each project or task run, and what other threads do
      while the loop sleeps afterwards (an activity signal, a stop request). */
  datatype Tick = Tick(now: int, scanFault: bool, gens: nat -> Generation, projectRuns: nat -> ProjectAttempt,
                       taskRuns: nat -> TaskAttempt, activity: Option<int>, stop: bool)

  /** How a pass ends: configured off, not idle yet, a fault in the scan caught by the
      loop's own handler, or a firing cycle that ran `runs` items. */
  datatype Cycle = Disabled | Waiting | Aborted | Fired(runs: int)

  predicate HasAutotask(pending: map<string, PendingFile>) {
    exists k :: k in pending && IsAutotaskName(k)
  }

  /** The part of the sandbox a pass can change: the pending directory, the log and the
      count of temporary directories left behind. */
  datatype Snapshot = Snapshot(pending: map<string, PendingFile>, logs: seq<LogRecord>, strays: nat)

  function StateOf(sandbox: Sandbox): Snapshot
    reads sandbox
  {
    Snapshot(sandbox.pending, sandbox.logs, sandbox.strayTempDirs)
  }

  /** Whether a pass in this mode lists a directory (`list_projects` or the autotask glob);
      in any other mode the pass does nothing, so nothing in it can raise. */
  predicate Scans(mode: Mode) {
    mode == Projects || mode == Autotasks
  }

  /** A pass fires when the scheduler is on, has been idle since `last` for at least the
      threshold, and its scan (if its mode has one) did not raise. */
  predicate FiresAt(cfg: Config, tick: Tick, last: int) {
    cfg.enabled && tick.now - last >= cfg.idleSeconds && !(tick.scanFault && Scans(cfg.mode))
  }

  /** What one pass of the loop does, from the sandbox state `before` to `after`, when the last
      activity was at `last`: how it ends and, when it fires, the effect of the projects or
      autotasks cycle of its mode (`tr` is what that cycle saw). */
  ghost predicate PassEffect(cfg: Config, tick: Tick, last: int, files: map<string, string>,
                             cycle: Cycle, tr: Trace, before: Snapshot, after: Snapshot)
  {
    && (cycle == Disabled <==> !cfg.enabled)
    && (cycle == Waiting <==> cfg.enabled && tick.now - last < cfg.idleSeconds)
    && (cycle == Aborted <==> cfg.enabled && tick.now - last >= cfg.idleSeconds && tick.scanFault && Scans(cfg.mode))
    && (cycle.Fired? <==> FiresAt(cfg, tick, last))
    && (!cycle.Fired? || cfg.mode.OtherMode? ==> after == before)
    && (cycle.Fired? ==>
          0 <= cycle.runs && (if cfg.maxRunsPerCycle >= 0 then cycle.runs <= cfg.maxRunsPerCycle else cycle.runs <= 1))
    && (cycle.Fired? && cfg.mode.OtherMode? ==> cycle.runs == 0)
    && (cycle.Fired? && cfg.mode == Projects ==>
          && after.pending == before.pending
          && Lists(tr.listing, files.Keys)
          && tr.batch == SliceTo(Filter(tr.listing, HasPySuffix), cfg.maxRunsPerCycle)
          && tr.attempted == Attempted(|tr.batch|, cfg.maxRunsPerCycle)
          && cycle.runs == CountWhere(ProjectReturnsAt(tick.projectRuns), tr.attempted)
          && after.logs == before.logs + ProjectLogs(tr.batch, tick.projectRuns, tr.attempted)
          && after.strays == before.strays + CountWhere(ProjectLeavesAt(tick.projectRuns), tr.attempted))
    && (cycle.Fired? && cfg.mode == Autotasks ==>
          && tr.generated == (if cfg.generateTasks && !HasAutotask(before.pending) && cfg.maxRunsPerCycle > 0
                              then cfg.maxRunsPerCycle else 0)
          && tr.mid == AfterGenerations(before.pending, tick.gens, tr.generated)
          && SortedStrictly(tr.listing) && (forall k :: k in tr.listing <==> k in tr.mid && IsAutotaskName(k))
          && tr.batch == SliceTo(tr.listing, cfg.maxRunsPerCycle)
          && (forall i :: 0 <= i < |tr.batch| ==> tr.batch[i] in tr.mid)
          && tr.attempted == Attempted(|tr.batch|, cfg.maxRunsPerCycle)
          && cycle.runs == CountWhere(ConsumesAt(tick.taskRuns), tr.attempted)
          && after.pending == tr.mid - ConsumedTasks(tr.batch, tick.taskRuns, tr.attempted)
          && after.logs == before.logs + TaskLogs(tr.mid, tr.batch, tick.taskRuns, tr.attempted)
          && after.strays == before.strays + CountWhere(TaskLeavesAt(tick.taskRuns), tr.attempted))
  }

  /** With the shipped configuration a pass fires once 200 seconds have passed since the
      last activity, unless the autotask scan fails. */
  lemma DefaultFiring(tick: Tick, last: int)
    ensures FiresAt(DefaultConfig, tick, last) <==> tick.now - last >= 200 && !tick.scanFault
  {
  }

  /** The last-activity time after the first `k` passes: the latest activity signal among
      them, or `a0` when none came. */
  function ActivityAfter(a0: int, ticks: seq<Tick>, k: nat): int
    requires k <= |ticks|
  {
    if k == 0 then a0
    else if ticks[k - 1].activity.Some? then ticks[k - 1].activity.value
    else ActivityAfter(a0, ticks, k - 1)
  }

  /** `cycles`, `traces` and `states` record the first `|cycles|` passes over `ticks`: pass `k`
      started from `states[k]` with its last activity at `ActivityAfter(a0, ticks, k)`, ended
      as `cycles[k]` after its cycle saw `traces[k]`, and left `states[k + 1]`. */
  ghost predicate Recorded(cfg: Config, ticks: seq<Tick>, a0: int, files: map<string, string>,
                           cycles: seq<Cycle>, traces: seq<Trace>, states: seq<Snapshot>)
  {
    && |cycles| == |traces| <= |ticks| && |states| == |cycles| + 1
    && forall k :: 0 <= k < |cycles| ==> PassRecorded(cfg, ticks, a0, files, cycles, traces, states, k)
  }

  /** Pass `k` of a record, as `PassEffect` describes it. */
  ghost predicate PassRecorded(cfg: Config, ticks: seq<Tick>, a0: int, files: map<string, string>,
                               cycles: seq<Cycle>, traces: seq<Trace>, states: seq<Snapshot>, k: nat)
    requires k < |cycles| == |traces| <= |ticks| && |states| == |cycles| + 1
  {
    PassEffect(cfg, ticks[k], ActivityAfter(a0, ticks, k), files, cycles[k], traces[k], states[k], states[k + 1])
  }

  /** In a record of passes, a pass fires exactly when `FiresAt` holds at the last activity
      before it. */
  lemma RecordedFires(cfg: Config, ticks: seq<Tick>, a0: int, files: map<string, string>,
                      cycles: seq<Cycle>, traces: seq<Trace>, states: seq<Snapshot>)
    requires Recorded(cfg, ticks, a0, files, cycles, traces, states)
    ensures forall k :: 0 <= k < |cycles| ==> (cycles[k].Fired? <==> FiresAt(cfg, ticks[k], ActivityAfter(a0, ticks, k)))
  {
    forall k | 0 <= k < |cycles|
      ensures cycles[k].Fired? <==> FiresAt(cfg, ticks[k], ActivityAfter(a0, ticks, k))
    {
      assert PassRecorded(cfg, ticks, a0, files, cycles, traces, states, k);
    }
  }

  /** Recording one more pass keeps every earlier pass's record. */
  lemma RecordedExtend(cfg: Config, ticks: seq<Tick>, a0: int, files: map<string, string>, cycles: seq<Cycle>,
                       traces: seq<Trace>, states: seq<Snapshot>, cycle: Cycle, tr: Trace, after: Snapshot)
    requires Recorded(cfg, ticks, a0, files, cycles, traces, states) && |cycles| < |ticks|
    requires PassEffect(cfg, ticks[|cycles|], ActivityAfter(a0, ticks, |cycles|), files, cycle, tr,
                        states[|cycles|], after)
    ensures Recorded(cfg, ticks, a0, files, cycles + [cycle], traces + [tr], states + [after])
  {
    var cs, ts, ss := cycles + [cycle], traces + [tr], states + [after];
    forall k | 0 <= k < |cs|
      ensures PassRecorded(cfg, ticks, a0, files, cs, ts, ss, k)
    {
      if k < |cycles| {
        assert PassRecorded(cfg, ticks, a0, files, cycles, traces, states, k);
        assert cs[k] == cycles[k] && ts[k] == traces[k] && ss[k] == states[k] && ss[k + 1] == states[k + 1];
      }
    }
  }

  /** The scheduler's state (`_state`) beside its fixed configuration and the sandbox it drives. */
  class Autorun {
    const cfg: Config
    const sandbox: Sandbox
    var lastActivity: int
    var running: bool

    constructor (cfg: Config, sandbox: Sandbox, now: int)
      ensures this.cfg == cfg && this.sandbox == sandbox
      ensures lastActivity == now && running
    {
      this.cfg := cfg;
      this.sandbox := sandbox;
      lastActivity := now;
      running := true;
    }

    /** `set_activity_now`: idle time restarts from `now`. */
    method SetActivityNow(now: int)
      modifies this`lastActivity
      ensures lastActivity == now
    {
      lastActivity := now;
    }

    /** `stop_autorun`. */
    method StopAutorun()
      modifies this`running
      ensures !running
    {
      running := false;
    }

    /** One pass of the body of `autorun_loop`, before its sleep. */
    method Iterate(tick: Tick) returns (cycle: Cycle, ghost tr: Trace)
      requires sandbox.Valid()
      modifies sandbox`pending, sandbox`logs, sandbox`strayTempDirs
      ensures sandbox.Valid()
      ensures PassEffect(cfg, tick, lastActivity, sandbox.files, cycle, tr, old(StateOf(sandbox)), StateOf(sandbox))
      ensures sandbox.files == old(sandbox.files)
    {
      tr := Trace(0, sandbox.pending, [], [], 0);
      if !cfg.enabled {
        return Disabled, tr;
      }
      if tick.now - lastActivity < cfg.idleSeconds {
        return Waiting, tr;
      }
      if tick.scanFault && Scans(cfg.mode) {
        return Aborted, tr;
      }
      var runs := 0;
      if cfg.mode == Projects {
        runs, tr := ProjectsCycle(sandbox, cfg.maxRunsPerCycle, tick.projectRuns);
      } else if cfg.mode == Autotasks {
        runs, tr := AutotasksCycle(sandbox, cfg.maxRunsPerCycle, cfg.generateTasks, tick.gens, tick.taskRuns);
      }
      cycle := Fired(runs);
    }

    /** Pass number `|cycles|` of the loop over `ticks`, appended to the record of the passes
        before it. */
    method RecordedPass(ticks: seq<Tick>, i: nat, ghost a0: int, ghost cycles: seq<Cycle>, ghost traces: seq<Trace>,
                        ghost states: seq<Snapshot>)
      returns (ghost cycles': seq<Cycle>, ghost traces': seq<Trace>, ghost states': seq<Snapshot>)
      requires sandbox.Valid()
      requires Recorded(cfg, ticks, a0, sandbox.files, cycles, traces, states) && |cycles| == i < |ticks|
      requires lastActivity == ActivityAfter(a0, ticks, i) && states[i] == StateOf(sandbox)
      modifies sandbox`pending, sandbox`logs, sandbox`strayTempDirs
      ensures sandbox.Valid() && sandbox.files == old(sandbox.files)
      ensures Recorded(cfg, ticks, a0, sandbox.files, cycles', traces', states')
      ensures |cycles'| == i + 1 && cycles'[..i] == cycles
      ensures states'[0] == states[0] && states'[i + 1] == StateOf(sandbox)
      ensures !cycles'[i].Fired? ==> StateOf(sandbox) == old(StateOf(sandbox))
      ensures old(sandbox.logs) <= sandbox.logs
    {
      var cycle, tr := Iterate(ticks[i]);
      RecordedExtend(cfg, ticks, a0, sandbox.files, cycles, traces, states, cycle, tr, StateOf(sandbox));
      cycles', traces', states' := cycles + [cycle], traces + [tr], states + [StateOf(sandbox)];
      assert cycles'[..i] == cycles;
    }

    /** `autorun_loop` over a finite run of passes: it sets `running`, then while `running`
        performs one pass, sleeps, and applies whatever other threads did meanwhile. The
        ghost results record each pass's outcome, what its cycle saw, and the sandbox state
        between passes. */
    method AutorunLoop(ticks: seq<Tick>)
      returns (ghost passes: nat, ghost cycles: seq<Cycle>, ghost traces: seq<Trace>, ghost states: seq<Snapshot>)
      requires sandbox.Valid()
      modifies this`running, this`lastActivity, sandbox`pending, sandbox`logs, sandbox`strayTempDirs
      ensures sandbox.Valid()
      ensures passes <= |ticks|
      ensures forall k :: 0 <= k < |ticks| && ticks[k].stop ==> passes <= k + 1
      ensures (forall k :: 0 <= k < |ticks| ==> !ticks[k].stop) ==> passes == |ticks| && running
      ensures passes < |ticks| ==> !running
      ensures passes == |ticks| || (0 < passes && ticks[passes - 1].stop)
      ensures running <==> forall k :: 0 <= k < passes ==> !ticks[k].stop
      ensures |cycles| == passes && |traces| == passes && |states| == passes + 1
      ensures states[0] == old(StateOf(sandbox)) && states[passes] == StateOf(sandbox)
      ensures Recorded(cfg, ticks, old(lastActivity), sandbox.files, cycles, traces, states)
      ensures forall k :: 0 <= k < passes ==>
        (cycles[k].Fired? <==> FiresAt(cfg, ticks[k], ActivityAfter(old(lastActivity), ticks, k)))
      ensures lastActivity == ActivityAfter(old(lastActivity), ticks, passes)
      ensures (forall k :: 0 <= k < passes ==> !cycles[k].Fired?) ==> StateOf(sandbox) == old(StateOf(sandbox))
      ensures sandbox.files == old(sandbox.files)
      ensures old(sandbox.logs) <= sandbox.logs
    {
      running := true;
      var i := 0;
      cycles, traces, states := [], [], [StateOf(sandbox)];
      ghost var quiet := true;
      while running && i < |ticks|
        invariant 0 <= i <= |ticks|
        invariant sandbox.Valid()
        invariant forall k :: 0 <= k < i - 1 ==> !ticks[k].stop
        invariant running <==> forall k :: 0 <= k < i ==> !ticks[k].stop
        invariant sandbox.files == old(sandbox.files)
        invariant old(sandbox.logs) <= sandbox.logs
        invariant lastActivity == ActivityAfter(old(lastActivity), ticks, i)
        invariant Recorded(cfg, ticks, old(lastActivity), sandbox.files, cycles, traces, states) && |cycles| == i
        invariant states[0] == old(StateOf(sandbox)) && states[i] == StateOf(sandbox)
        invariant quiet <==> forall k :: 0 <= k < i ==> !cycles[k].Fired?
        invariant quiet ==> StateOf(sandbox) == old(StateOf(sandbox))
      {
        var tick := ticks[i];
        cycles, traces, states := RecordedPass(ticks, i, old(lastActivity), cycles, traces, states);
        quiet := quiet && !cycles[i].Fired?;
        if tick.activity.Some? {
          SetActivityNow(tick.activity.value);
        }
        if tick.stop {
          StopAutorun();
        }
        i := i + 1;
      }
      passes := i;
      RecordedFires(cfg, ticks, old(lastActivity), sandbox.files, cycles, traces, states);
    }
  }
}
