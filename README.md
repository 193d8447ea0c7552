# Gary sandbox: a verified Dafny model

This project models the core of Gary's sandbox, a small Python system that does three things:

- It runs untrusted code snippets and stored project files as isolated child processes. Each run gets a minimal environment and writes a capped audit log.
- It keeps an approved project store beside a pending queue. The queue holds request descriptors awaiting approval and disposable autotasks.
- It has an idle scheduler that, after a quiet period, runs projects or autotasks up to a per-cycle limit. When the queue is empty it first generates trivial tasks.

The model also covers the deterministic helpers of the chat backend:

- the text clamp;
- the sliding-window rate limiter that gates web search;
- the per-user memory of facts and personality.

Modules:

- `Util`: option and call-outcome types, an order-preserving `Filter` with its lemmas, and enumeration of a set.
- `PyText`: the Python string operations the code relies on. These are `s[:n]` for any integer `n`, `os.path.basename`, `str.strip` with Python's white-space set, `str.join`, `str(n)`, Python's `<` on strings, and `sorted` / `sorted(..., reverse=True)` over a set of names.
- `SandboxManager`: `_safe_env`, the result and log shaping, name sanitising, and the pending/approval state machine as pure step functions. Also `class Sandbox`, whose fields are the three directories (as maps and a log sequence) and the count of temporary directories left behind. `CreatePendingRequest` and `ApproveRequest` are proved equal to the step functions `CreateStep` and `ApproveStep`. The other methods state their effect directly.
- `SandboxAutorun`: `class Autorun`, holding the scheduler state (`last_activity_ts`, `running`), one pass of `autorun_loop`, and the loop itself over a finite run of passes. Task generation and the two run loops are separate methods, each specified against a function of the pass's inputs: the directory after generation, the set of consumed tasks, and the log records written.
- `GarySafe`: `clamp_text`, `class SearchLimiter` (`_search_timestamps`), memory records, `recall_context`, and `class MemoryStore` with `remember_fact`, `set_personality` and the `/memory` endpoint.

Everything that touches the world becomes a parameter of the call that meets it. That covers:

- the child process outcome;
- the file operations whose failure the code reacts to: the project write of `save_project`, both writes of `create_pending_request`, the move and the unlink of `approve_request`, the project read of `run_project_by_name`, the autotask read and unlink, every temporary-directory and script-copy step, and every log write;
- a failing directory scan in the scheduler;
- the clock, each reading separately;
- random choices;
- the order of a listing that is sorted by modification time;
- the forbidden-input predicate.

The descriptor reads of `list_pending_requests` and `approve_request` are not separate parameters: a read that fails is caught by the same `try` as a failed JSON decode, so the model's `NotJson` case (skipped by the listing, refused by approval) covers it.

Notes on the code's behaviour that the model keeps:

- An autotask is deleted only after `run_code_snippet` returns and the unlink succeeds. A task whose read, run or unlink raises is kept and does not count.
- `run_project_by_name` writes the script copy outside its `try` and does not guard its log write. A failure of either raises to the caller and skips the cleanup.
- `approve_request` on a descriptor without `code_full_path`, or one that is JSON but not an object, raises. A missing or non-JSON descriptor file is reported as a bad request.
- A child that exits with a non-zero status is still reported as ok, with its output.
- `run_project_by_name` does not add ".py" to the name it is given. A basename of "", "." or ".." names a directory, and reading it raises.
- A negative `max_runs_per_cycle` drops that many items from the end of the batch, and the loop then stops after its first item.

## Model

| member | source | states |
|---|---|---|
| PyText.SliceTo | gary_safe.py:51 | `s[:n]` for any integer n: a prefix of s, of length min(n, len(s)) for n >= 0, and of length len(s) + n (at least 0) for negative n, which counts from the end. |
| PyText.Basename | sandbox_manager.py:101 | `os.path.basename`: the result has no '/', is a suffix of the path, and is preceded by a '/' whenever it is shorter than the path. |
| PyText.Strip | gary_safe.py:104 | `str.strip`: the result is a slice of the text with only white space outside it, and has no white space at either end. Text without white space at its ends is returned unchanged. |
| PyText.SliceKeepsSuffix | gary_safe.py:104 | Cutting only white space from both ends of a text keeps any suffix that begins and ends with a non-space character. |
| PyText.StripKeepsSuffix | gary_safe.py:104 | Stripping keeps any suffix that begins and ends with a non-space character. |
| PyText.Join | gary_safe.py:102 | `" ".join`: no strings give "", one string gives itself, and a non-empty list gives a text that starts with the first string and ends with the last. |
| PyText.JoinLength | gary_safe.py:102 | The joined text of n strings is as long as the strings together plus n - 1 separators. |
| PyText.JoinSnoc | gary_safe.py:102 | Joining one more string appends the separator and that string. |
| PyText.NatToString | sandbox_autorun.py:61-62 | `str(n)`: a non-empty run of decimal digits, without a leading zero, whose decimal value is n. |
| PyText.IsSpace | gary_safe.py:104 | The characters `str.isspace()` accepts, which `strip()` removes: the ASCII blank and control separators (tab, newline, vertical tab, form feed, carriage return, 0x1C-0x1F) and the Unicode spaces and line and paragraph separators. |
| PyText.LexLess | sandbox_autorun.py:109 | Python's `<` on strings, which `sorted` uses: the first differing code point decides, and a proper prefix comes first. It is irreflexive, total and transitive (`LexIrreflexive`, `LexTotal`, `LexTransitive`). |
| PyText.SortedNames | sandbox_autorun.py:109 | `sorted(...)`: each name of the set exactly once, in strictly ascending code-point order. |
| PyText.SortedNamesDescending | sandbox_manager.py:188 | `sorted(..., reverse=True)`: each name of the set exactly once, in strictly descending code-point order. |
| SandboxManager.SafeEnv | sandbox_manager.py:30-42 | Only SYSTEMROOT, PATH, TMP, TEMP and PYTHONUNBUFFERED can appear. Each of the four pass-through variables is present exactly when the host has it, and keeps the host's value. PYTHONUNBUFFERED is always "1". |
| SandboxManager.SanitizeProjectName | sandbox_manager.py:101-103 | The stored name has no '/', ends in ".py" and starts with the basename of the given name. A basename that already ends in ".py" is kept unchanged. |
| SandboxManager.SanitizeIdempotent | sandbox_manager.py:101-103 | Sanitising a sanitised name gives the same name. |
| SandboxManager.HasPySuffix | sandbox_manager.py:111 | `p.suffix == ".py"`: the name ends in ".py" and is longer than ".py" itself, which pathlib treats as having no suffix. |
| SandboxManager.SavedNameListedUnlessBare | sandbox_manager.py:101-111 | A saved name passes the `.suffix == ".py"` filter of the listing exactly when it is not the bare ".py" (what an empty basename becomes). |
| SandboxManager.ChildResult | sandbox_manager.py:65-71 | Completion gives ok, the stdout and the elapsed time, with no error. A timeout gives not ok, error "timeout", output "" and no elapsed. Any other fault gives not ok, its message as the error, and output "". |
| SandboxManager.SnippetResult | sandbox_manager.py:51-71 | In a snippet run a failed script write is reported as a fault result carrying the write's message. Otherwise the result is the child's. |
| SandboxManager.SnippetLog | sandbox_manager.py:76-84 | The snippet log record has type snippet and the result's ok, error and elapsed. Its output is a prefix of the result output of length min(len, 10000). Its code preview is a prefix of the code of length min(len, 2000). |
| SandboxManager.ProjectLog | sandbox_manager.py:147-156 | The project log record has type project, names the project, copies ok, error and elapsed, has no code preview, and caps the output to a prefix of at most 10000 characters. |
| SandboxManager.CodeFileName | sandbox_manager.py:176-178 | The pending code file name starts with `<ts>_<hex>_<name>` and ends in ".py". |
| SandboxManager.CreateStep | sandbox_manager.py:163-184 | It returns exactly when the code file name has no separator and both writes succeed. A separator or a failed code write raises and changes nothing. A failed descriptor write raises and leaves the code file behind. On success the code file holds the full code and `<codefile>.request.json` is a descriptor object with the name, the reason, a preview that is the code's first min(len, 4000) characters, and the code file's path. Every other entry is unchanged. |
| SandboxManager.ApproveStep | sandbox_manager.py:197-216 | An unreadable or non-JSON descriptor and a missing code file are refused. A descriptor that is JSON but not an object, or that has no code path, raises. A failed move raises. In all these cases neither directory changes. Approval succeeds exactly when the descriptor is an object naming a pending code file and the move works. Then the code file leaves pending and enters the store under the same name with the same text. The descriptor is gone if its unlink succeeded and stays unchanged if it failed. No other entry changes. |
| SandboxManager.ApproveTwiceRefused | sandbox_manager.py:202-210 | After a successful approval, approving the same descriptor again is refused, whether or not the first unlink worked. |
| SandboxManager.CreateThenApprove | sandbox_manager.py:172-216 | A freshly created request approves at once: its code lands in the store under the code file's name, and both pending files are gone. |
| SandboxManager.ApprovePreservesFlat | sandbox_manager.py:209-210 | Approval keeps both directories free of names containing a separator. |
| SandboxManager.Sandbox.constructor | sandbox_manager.py:23-25 | The sandbox starts with whatever files, pending entries and log records the directories already hold, and no stray temporary directory. |
| SandboxManager.Sandbox.SaveProject | sandbox_manager.py:96-106 | A successful write stores the code under the sanitised name, replacing any earlier file of that name, and returns that name. A failed write raises and stores nothing. Nothing else changes. |
| SandboxManager.Sandbox.ListProjects | sandbox_manager.py:108-117 | The listing is exactly the ".py" entries of the directory order, in that order, each with its size. Every ".py" project appears. |
| SandboxManager.Sandbox.ListPendingRequests | sandbox_manager.py:186-195 | The pending directory is listed once per name in descending name order. The result is exactly the descriptor-named files of that listing that decode to a JSON object, in that order, each once and with its decoded content. Other files are skipped. |
| SandboxManager.Sandbox.ListedIn | sandbox_manager.py:188-195 | The loop keeps exactly the descriptor-named entries of the listing that decode to an object, in listing order, with their decoded content. |
| SandboxManager.Sandbox.RunCodeSnippet | sandbox_manager.py:44-94 | Only a failed temporary directory raises. Otherwise the call returns the snippet result and appends exactly one log record, unless the log write fails. A failed log write or cleanup never changes the result; a failed cleanup leaves one stray directory. |
| SandboxManager.Sandbox.RunProjectByName | sandbox_manager.py:119-161 | A name whose basename is absent returns {ok false, "not found"}, running and logging nothing. A failed read raises before anything is created. A failed copy or log write raises and leaks the temporary directory. Otherwise the call returns the child's result after appending one project log record under the basename. |
| SandboxManager.Sandbox.CreatePendingRequest | sandbox_manager.py:163-184 | The pending directory and the reply are those of `CreateStep`. |
| SandboxManager.Sandbox.ApproveRequest | sandbox_manager.py:197-216 | Both directories and the reply are those of `ApproveStep`. |
| SandboxAutorun.Template | sandbox_autorun.py:54-60 | Each of the four task templates is a generated-task body (`IsTemplate`). |
| SandboxAutorun.IsAutotaskName | sandbox_autorun.py:109 | The names the glob `autotask_*.py` matches: "autotask_", any text, then ".py", without the prefix and suffix overlapping. |
| SandboxAutorun.AutotaskName | sandbox_autorun.py:61-62 | `autotask_<ms>.py` matches the `autotask_*.py` glob and has no separator. |
| SandboxAutorun.GenerateStep | sandbox_autorun.py:50-67 | A successful write puts the chosen template under `autotask_<ms>.py`, as text that is not JSON. A failed write is swallowed and changes nothing. Only autotask files holding a template are added or replaced. |
| SandboxAutorun.GenerationsAddTemplates | sandbox_autorun.py:112-116 | After any number of generation calls, only autotask files holding a template have been added or replaced, and the file of every successful write is present. |
| SandboxAutorun.GenerateAutotaskFile | sandbox_autorun.py:50-67 | The pending directory becomes that of `GenerateStep`. |
| SandboxAutorun.GenerateTasks | sandbox_autorun.py:112-116 | The pending directory becomes the result of exactly max(count, 0) generation calls, the i-th with the i-th inputs, in order. |
| SandboxAutorun.CountWhereExtremes | sandbox_autorun.py:96-105 | A run count equals the number of attempts when every attempt counts, and zero when none does. |
| SandboxAutorun.RunProject | sandbox_autorun.py:99-103 | For a listed project, the call returns (and counts) exactly when its read, its copy and its log write succeed. Then exactly that project's log record is appended, and otherwise none. A temporary directory is left behind when the copy, the log write or the cleanup fails. |
| SandboxAutorun.RunProjects | sandbox_autorun.py:96-105 | Every project in the batch is attempted, in order, except that a negative limit stops after the first. `runs` counts the attempts that returned. The log grows by exactly one project record per returning attempt, in batch order. A raising project neither counts nor stops later ones. `runs` never passes the limit (at most 1 for a negative limit). |
| SandboxAutorun.RunAutotask | sandbox_autorun.py:121-127 | A task file is removed, and counts, exactly when it was read, its snippet run returned and its unlink succeeded. Otherwise the pending directory is unchanged. The snippet log record of the file's code is appended exactly when the read, the temporary directory and the log write succeed. |
| SandboxAutorun.RunAutotaskAt | sandbox_autorun.py:119-127 | The i-th task of a batch removes its file exactly when its attempt consumes it, and logs the code the file held when the loop began. |
| SandboxAutorun.ConsumedTasksMembers | sandbox_autorun.py:119-125 | In a batch of distinct files, a file has been consumed after `n` attempts exactly when it is among the first `n` and its attempt consumed it. Only batch files are ever consumed. |
| SandboxAutorun.ConsumedTasksOfBatch | sandbox_autorun.py:119-125 | Only files among the first `n` of the batch are consumed by the first `n` attempts. |
| SandboxAutorun.RunAutotasks | sandbox_autorun.py:119-129 | The pending directory loses exactly the consumed tasks among those attempted. Each such removal counts one run. No other pending file changes. The log grows by exactly one snippet record per logged attempt, in batch order, each with the code its file held. `runs` never passes the limit. |
| SandboxAutorun.ProjectsCycle | sandbox_autorun.py:92-105 | The batch is the listing's ".py" entries cut to the limit (`projects[:max]`). `runs` counts the returning attempts of that batch, and the log grows by their records. |
| SandboxAutorun.QueuedAutotasks | sandbox_autorun.py:109 | The queue is every pending autotask name once, in ascending name order, and is empty exactly when none is queued. |
| SandboxAutorun.PrepareAutotasks | sandbox_autorun.py:109-116 | The queue is the sorted autotask listing taken after exactly max(limit, 0) generation calls when nothing was queued and generation is on, and after none otherwise. |
| SandboxAutorun.AutotasksCycle | sandbox_autorun.py:108-129 | With no autotask queued and generation on, exactly the per-cycle limit of generation calls is made, and otherwise none. The batch is the sorted queue after generation cut to the limit. The pending directory becomes the one after generation minus the consumed tasks. The log grows by the attempted tasks' records, and `runs` counts the consumed tasks. |
| SandboxAutorun.AutotasksCycleKeepsOthers | sandbox_autorun.py:108-129 | An autotasks cycle leaves every pending file that is not named like an autotask as it was. |
| SandboxAutorun.Autorun.constructor | sandbox_autorun.py:23-27 | The scheduler starts running, with its activity clock at the start time. |
| SandboxAutorun.Autorun.SetActivityNow | sandbox_autorun.py:46-48 | The last-activity time becomes the current time, and nothing else changes. |
| SandboxAutorun.Autorun.StopAutorun | sandbox_autorun.py:149-150 | `running` becomes false, and nothing else changes. |
| SandboxAutorun.Autorun.Iterate | sandbox_autorun.py:75-137 | `PassEffect`: a pass is disabled, waiting, aborted by a failing scan (only in the projects and autotasks modes, which scan), or fires, each exactly under its condition. Only a firing pass changes anything. In projects mode it has the effect of `ProjectsCycle` and in autotasks mode that of `AutotasksCycle`: their logs, runs, pending directory and left-behind temporary directories. In any other mode it runs nothing. The projects are never changed. |
| SandboxAutorun.Autorun.AutorunLoop | sandbox_autorun.py:70-141 | Pass k has the `PassEffect` of its tick, from the state the previous pass left, with the idle time measured from the latest activity signal before it (`ActivityAfter`). So a pass fires exactly when the scheduler is on, idle since that signal for the threshold, and its scan did not fail. Passes that never fire leave the sandbox as it was. The loop runs until the first stop request and ends at the `while` check right after it: it ends either with every tick used or with the last pass's tick carrying a stop, and `running` is true exactly when no pass so far carried one. A pass that raises does not end it. Projects are never changed, and the log only grows. |
| SandboxAutorun.RecordedFires | sandbox_autorun.py:77-109 | In a record of passes, pass k fires exactly when `FiresAt` holds for the last activity before it. |
| SandboxAutorun.RecordedExtend | sandbox_autorun.py:74-139 | Appending one more pass to a record of passes keeps the earlier passes recorded. |
| SandboxAutorun.DefaultFiring | sandbox_autorun.py:13-20 | With the shipped `AUTORUN_CONFIG` (enabled, 200 idle seconds, autotasks mode), a pass fires exactly when 200 seconds have passed since the last activity and the autotask scan did not fail. |
| GarySafe.ClampText | gary_safe.py:50-51 | Text that fits is returned unchanged. Otherwise the result is `s[:n] + "..."`, which for n ≥ 0 has length n + 3 and begins with `s[:n]`. |
| GarySafe.ClampIdempotent | gary_safe.py:50-51 | Clamping twice with the same non-negative bound equals clamping once. |
| GarySafe.SearchLimiter.constructor | gary_safe.py:47 | The timestamp list starts empty. |
| GarySafe.SearchLimiter.RateLimitAllows | gary_safe.py:60-65 | The list becomes the order-preserving subsequence of timestamps later than one minute ago. The call allows exactly when fewer than six remain. |
| GarySafe.SearchLimiter.RegisterSearchTimestamp | gary_safe.py:67-68 | Exactly the current time is appended at the end. |
| GarySafe.SearchLimiter.AdmitSearch | gary_safe.py:118-123 | With no key nothing is touched. Otherwise the list is pruned against the first clock reading. The call is rate-limited exactly when six or more remain. It refuses the characters `<`, `>`, `\` and NUL. Only an admitted search is registered, with the second clock reading. For requests handled one at a time, at most six timestamps are ever held. When the clock has not gone back between the two readings, all of them are within the minute before the check. |
| GarySafe.AdmittedWithinWindow | gary_safe.py:60-68 | Registering after an allowed check leaves at most six timestamps, all within the minute before the check. |
| GarySafe.LoadMemory | gary_safe.py:74-79 | A user without a record gets facts [] and personality "". Otherwise the user gets the stored record. |
| GarySafe.WithFact | gary_safe.py:89 | The clamped fact is appended after the existing facts (a missing list is created), and the personality is unchanged. |
| GarySafe.WithPersonality | gary_safe.py:96 | The personality becomes the clamped text (at most 1003 characters), and the facts are unchanged. |
| GarySafe.RecallContext | gary_safe.py:100-104 | The context is the personality, a space and the first 200 facts joined by spaces, with only the white space at both ends removed. |
| GarySafe.RecallEndsWithNewFact | gary_safe.py:86-104 | With fewer than 200 facts stored, a newly remembered fact ends the recalled context, unless its clamped text begins or ends with white space. |
| GarySafe.RecallDefaultIsEmpty | gary_safe.py:74-104 | A user with no memory recalls the empty string. |
| GarySafe.RememberBeyondRecallLimit | gary_safe.py:86-104 | Once 200 facts are stored, remembering another does not change the recalled context. |
| GarySafe.MemoryStore.constructor | gary_safe.py:30-32 | The store starts with the given records. |
| GarySafe.MemoryStore.RememberFact | gary_safe.py:86-91 | Forbidden text returns false and changes nothing. Otherwise the user's loaded or default record gets the clamped fact, and the call returns true. Bounded stored text stays bounded. |
| GarySafe.MemoryStore.SetPersonality | gary_safe.py:93-98 | Forbidden text returns false and changes nothing. Otherwise the user's personality becomes the clamped text, and the call returns true. Bounded stored text stays bounded. |
| GarySafe.MemoryStore.Memory | gary_safe.py:187-195 | A non-empty fact takes precedence over a personality. With neither non-empty, the call returns ok false, kind "none", and changes nothing. Other users' records never change. |
| GarySafe.MemoryStore.Recall | gary_safe.py:100-104 | The user's loaded or default record, recalled: the stripped personality-and-facts text. A user without a record recalls "". |

## Left out

- Processes and isolation: the interpreter invocation (`-I`, `sys.executable`, the working directory, killing on timeout) is not modelled. The child is an outcome value: it completes with output and elapsed time, times out, or faults. Elapsed time and idle time are whole numbers, not floats.
- Time, identifiers and randomness: timestamps (`_timestamp`, `strftime`, `time.time`, `utcnow`), `uuid4` hex and `random.choice` are parameters. The log record's own timestamp is not stored.
- JSON: encoding and decoding is not computed. A pending file carries its text and what it decodes to: not JSON, a JSON value that is not an object, or an object. The descriptor text is a parameter of `CreatePendingRequest`. A memory record keeps only its `facts` and `personality` keys, assumed to hold strings.
- Paths: only the POSIX separator is modelled. `code_full_path` is modelled as a file name inside the pending directory, so a descriptor pointing elsewhere is not modelled. The `approved_dir` argument of `approve_request` is not modelled; approval always targets the project store. The memory file path built from `user_id` is a map key.
- Sizes: file sizes are counted in characters, not encoded bytes. The `created` time of a listed project is not modelled.
- SandboxManager.Sandbox.ListProjects: the mtime order is a parameter, not computed.
- SandboxManager.Sandbox.ListPendingRequests: the `**obj` merge of the descriptor into the listed entry is the decoded request.
- SandboxAutorun.ProjectsCycle: the modification-time order of `list_projects` is not computed; the listing is some enumeration of the project store.
- The child's own effects: it runs with the temporary directory as its working directory, but nothing confines it there. It could change projects, pending files or logs; the model does not, so "projects are never changed" holds for the sandbox's and the scheduler's own code only. A temporary directory left behind is only counted.
- SandboxAutorun.Autorun.Iterate: a scan fault is modelled before anything happens. A failure of the second glob, after generation has already written files, is not modelled; the handler would then abort a pass that changed the pending directory.
- SandboxManager.Sandbox.SaveProject: a write that fails part way is modelled as storing nothing; a truncated file is not modelled.
- Concurrency: `start_autorun_thread`, `time.sleep` and other threads acting while the loop sleeps are not modelled. Those threads' activity signals and stop requests arrive between passes, as part of each pass's input. The web handlers also run concurrently in a thread pool; the model treats requests as handled one at a time, so the rate limiter's bound of six timestamps (gary_safe.py:60-68) and the load-modify-save of `remember_fact` and `set_personality` (gary_safe.py:86-98) hold only for requests that do not overlap.
- The autorun `log` helper (print and append to `sandbox_autorun.log`) is not modelled. Its file append swallows its own failures; its `print` is assumed not to fail, although a failing print outside the per-item `try` would abort the pass through the loop's handler.
- Failures of memory-file reads and writes (an unreadable JSON file, a failed `save_memory`) are not modelled. Memory updates always persist.
- `is_forbidden_input`: its regular expressions are an uninterpreted predicate.
- `safe_snippet_from_serpapi`, the HTTP request of `web_search_safe`, `ask_openai` and the FastAPI routes other than `/memory` are not modelled. Neither are gary_api.py, viewer.py and chat_test.py, for the same reason: they are network, UI or interactive code.
