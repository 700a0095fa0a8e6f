# Sandboxed analysis-script execution, modelled in Dafny

This project models the two pieces of decision logic around the system's untrusted-code
executor.

- **The worker's sandbox** (`worker/sandbox_runtime.py`):
  - The denylist pre-filter `_sanitize`: lower-case the script, then take the first entry of
    `BANNED_TOKENS`, in list order, that occurs in it.
  - `run_user_code` and its four outcomes: rejected, timed out, raised, completed.
  - The scan of the output slots `out_df`, `result_df` and `result`.
  - The cut to 200 rows.
  - The chart loop. It saves each open figure as `stem_k.png` for k = 1, 2, … and returns the
    URLs under `/static/charts/`.
- **The backend's script handling** (`backend/code_utils.py`):
  - `extract_code`: the leftmost fenced block matched by `BLOCK_RE`, or the whole reply when
    there is none, then stripped.
  - `looks_unsafe`: the backend's own denylist, with its own token list and message.

Modules:

- `support.dfy`:
  - `Options`: the optional value.
  - `Seqs`: first index that satisfies a predicate.
  - `Text`: the parts of Python's `str` the code relies on: `isspace`/`strip`, `lower`,
    `sub in s` and `str(n)`.
- `denylist.dfy`:
  - `Denylist`: the first-match scan that both token lists share.
- `code_utils.dfy`:
  - `CodeUtils`: the regular expression, `extract_code`, the backend `BANNED_TOKENS` and
    `looks_unsafe`.
- `sandbox_runtime.dfy`:
  - `SandboxRuntime`: configuration constants, `_sanitize` and the worker `BANNED_TOKENS`.
  - The values a script runs against and leaves behind.
  - Slot selection, truncation, chart naming and the chart directory.
  - A `Host` class for the process-wide state `run_user_code` reads and changes: the datasets,
    open figures, the chart directory and the count of executions. The script itself may
    write to the datasets and the chart directory.
  - The method `RunUserCode`.

The model follows the code in two places where a reader might expect something else:

- One might expect chart names to be unique per request. They come from the dataset's file
  name, up to its first '.', with no per-request identifier. So they are distinct only within
  one call, and a later call on a dataset with the same stem overwrites earlier charts
  (`StemIgnoresDirectory`, `LaterCallOverwritesChart`).
- One might expect a figure that fails to save to be skipped while collection continues. The
  chart loop has one exception handler around the whole loop, so the first failing save ends
  the collection. That figure and every later one stay open (`CollectCharts`, `SavedCount`).

## Model

| member | source | states |
|---|---|---|
| SandboxRuntime.BannedTokens | worker/sandbox_runtime.py:19-23 | the worker's 22 tokens, verbatim and in their listed order |
| SandboxRuntime.Sanitize | worker/sandbox_runtime.py:52-57 | `_sanitize` as the shared scan over the worker's tokens with the ending "' is not allowed."; characterised by `SanitizeAccepts` and `RefusedWith` |
| SandboxRuntime.SanitizeAccepts | worker/sandbox_runtime.py:52-57 | `_sanitize` returns None exactly when none of the worker tokens occurs in the lower-cased script |
| SandboxRuntime.SanitizeIgnoresCase | worker/sandbox_runtime.py:53 | lower-casing the script first never changes the verdict |
| SandboxRuntime.RefusedWith | worker/sandbox_runtime.py:54-56 | when token k is the first listed token that occurs in the lower-cased script, `_sanitize` returns "Use of '<token k stripped>' is not allowed." |
| SandboxRuntime.ImportIsRefused | worker/sandbox_runtime.py:19-23 | `import os` is refused with "Use of 'import' is not allowed." (the token's trailing space is stripped) |
| SandboxRuntime.DunderIsRefused | worker/sandbox_runtime.py:54-56 | in `os.sep + df.__doc__` the message names `__`, listed before `os.`, although `os.` comes first in the script |
| Denylist.Message | worker/sandbox_runtime.py:56 | "Use of '" followed by the stripped token and the caller's ending, the f-string of both denylists |
| Denylist.Screen | worker/sandbox_runtime.py:52-57 | the shared scan: None iff no listed token occurs in the lower-cased code; otherwise the message for the first-listed occurring token, its list position deciding |
| Denylist.ScreenIgnoresCase | backend/code_utils.py:22 | the shared scan gives the same verdict on a script and on its lower case |
| Text.Lower | worker/sandbox_runtime.py:53 | `str.lower()`, character by character; at least as long as the input and at most twice as long |
| Text.LowerIdempotent | worker/sandbox_runtime.py:53 | Python's lower-casing applied twice equals applying it once |
| Text.Contains | worker/sandbox_runtime.py:55 | `tok in low`: the token is a prefix of the text or of one of its suffixes |
| Text.ContainsIsOccurrence | worker/sandbox_runtime.py:55 | `tok in low` holds exactly when the token occurs at some index of the text |
| Text.IsSpace | worker/sandbox_runtime.py:56 | the code points `str.isspace()` accepts, which `tok.strip()` removes |
| Text.Strip | backend/code_utils.py:17-18 | `str.strip()`: a slice of the input with no whitespace at either end; everything removed is whitespace |
| Text.DecimalString | worker/sandbox_runtime.py:107 | `str(k)` of the chart index: at least one decimal digit, only digits, no leading zero |
| Text.DecimalStringInjective | worker/sandbox_runtime.py:107 | different chart indices print as different decimal strings |
| SandboxRuntime.InitialEnv | worker/sandbox_runtime.py:69-73 | the dictionary built at lines 69-73 holds exactly `pd`, `plt` and `df`, with `df` bound to the loaded table |
| SandboxRuntime.SelectedTable | worker/sandbox_runtime.py:88-95 | None iff none of `out_df`, `result_df`, `result` is bound to a DataFrame; otherwise the table of the first slot that is, slots holding other values being skipped |
| SandboxRuntime.SelectOutput | worker/sandbox_runtime.py:88-93 | the slot loop with its break returns exactly the selected table |
| SandboxRuntime.HeadRows | worker/sandbox_runtime.py:98 | `head(200)` keeps min(200, n) rows, and they are the first rows in their original order |
| SandboxRuntime.CompletedResult | worker/sandbox_runtime.py:95-124 | a completed run has ok and no error, the captured streams and the given URLs; table and columns are both None iff nothing was selected, else the first min(200, n) rows and the full column list |
| SandboxRuntime.Basename | worker/sandbox_runtime.py:107 | `os.path.basename`: a suffix without '/', preceded by '/' unless it is the whole path |
| SandboxRuntime.UpToFirstDot | worker/sandbox_runtime.py:107 | `split('.')[0]`: a prefix without '.', followed by '.' unless it is the whole text |
| SandboxRuntime.ChartStem | worker/sandbox_runtime.py:107 | `os.path.basename(csv_path).split('.')[0]`; characterised by `StemOf` |
| SandboxRuntime.StemOf | worker/sandbox_runtime.py:107 | the stem of `dir/name.ext…` is `name`, whatever the directory and the extensions |
| SandboxRuntime.StemIgnoresDirectory | worker/sandbox_runtime.py:107 | `/data/u1/sales.csv` and `/data/u2/sales.v2.csv` share the stem `sales`, so their charts share names |
| SandboxRuntime.ChartName | worker/sandbox_runtime.py:107 | the file name `stem_k.png`; different k give different names (`ChartNameInjective`) |
| SandboxRuntime.ChartNameInjective | worker/sandbox_runtime.py:107 | `stem_a.png == stem_b.png` only when a == b |
| SandboxRuntime.ChartUrls | worker/sandbox_runtime.py:107-111 | n URLs, the k-th being `/static/charts/stem_k.png` for k = 1..n consecutively |
| SandboxRuntime.ChartUrl | worker/sandbox_runtime.py:111 | `/static/charts/` followed by the file name |
| SandboxRuntime.ChartUrlInjective | worker/sandbox_runtime.py:111 | different indices give different URLs |
| SandboxRuntime.ChartUrlsDistinct | worker/sandbox_runtime.py:103-111 | the URLs returned by one call are pairwise distinct |
| SandboxRuntime.SavedCount | worker/sandbox_runtime.py:104-114 | the loop saves the figures before the first one whose save fails: all of them before that index are savable, and it is the end or an unsavable figure |
| SandboxRuntime.Saved | worker/sandbox_runtime.py:108-109 | the chart directory after the first n saves, each writing or overwriting one file; characterised by `SavedContents` |
| SandboxRuntime.SavedContents | worker/sandbox_runtime.py:107-109 | after n saves the chart directory holds the k-th figure under `stem_k.png` for each k ≤ n, and every other file unchanged |
| SandboxRuntime.LaterCallOverwritesChart | worker/sandbox_runtime.py:107-109 | a later call with the same stem replaces the file `stem_1.png` that an earlier call wrote |
| SandboxRuntime.RemoveFirst | worker/sandbox_runtime.py:110 | closing a figure removes exactly one occurrence of it from the open figures; characterised in order by `RemoveFirstAt` and `RemoveFirstAbsent` |
| SandboxRuntime.RemoveFirstAt | worker/sandbox_runtime.py:110 | closing a figure whose first occurrence is at i leaves the figures before i and after i, in their order |
| SandboxRuntime.RemoveFirstAbsent | worker/sandbox_runtime.py:110 | closing a figure that is not open leaves the open figures as they were |
| SandboxRuntime.Host.Execute | worker/sandbox_runtime.py:77-80 | `exec` gives the interpreter's outcome on the script, the globals, the open figures, the datasets and the chart directory; the figures, datasets and chart files it leaves replace the old ones, so the script's own file writes are kept |
| SandboxRuntime.Host.SaveFigure | worker/sandbox_runtime.py:109 | a save succeeds exactly for a savable figure and then writes that one file; a failed save writes nothing |
| SandboxRuntime.Host.CloseFigure | worker/sandbox_runtime.py:110 | the figure is removed from the open figures |
| SandboxRuntime.CollectCharts | worker/sandbox_runtime.py:103-114 | the URLs are those of the figures saved before the first failing save; those figures are closed, the rest stay open, and the directory gains exactly their files |
| SandboxRuntime.Assemble | worker/sandbox_runtime.py:81-124 | the returned dictionary, the figures left open and the chart directory for each way `exec` can end; what it means is stated by `AssembleReports` |
| SandboxRuntime.AssembleReports | worker/sandbox_runtime.py:81-124 | ok iff `exec` completed; the alarm reports "Execution exceeded time limit", another TimeoutError its message and any other exception its traceback, each with the captured streams and with the script's chart files as the only chart change; a completed run gives the completed result, and the charts collected are added on top of the script's files |
| SandboxRuntime.AssembleCompleted | worker/sandbox_runtime.py:87-124 | slot selection, truncation and chart collection in sequence give the completed result with the URLs of the saved figures |
| SandboxRuntime.RunLoaded | worker/sandbox_runtime.py:68-124 | after one execution, the result, the open figures and the chart directory are those its outcome determines on top of the script's own writes, and the datasets are as the script left them |
| SandboxRuntime.RunScreened | worker/sandbox_runtime.py:66-124 | an unreadable dataset raises before anything runs and nothing changes; otherwise one execution on a fresh environment holding the loaded table |
| SandboxRuntime.RunUserCode | worker/sandbox_runtime.py:60-124 | a refused script returns ok=False with error == stderr == the message and stdout "", and nothing is loaded, run or changed; otherwise the outcome of one execution on the dataset, as above |
| CodeUtils.FindFence | backend/code_utils.py:4 | the first "```" at or after a position, where a non-greedy body stops, or None when there is none |
| CodeUtils.MatchAt | backend/code_utils.py:4 | a match at an index exists iff an opener ("```python\n" with "python" in any case, or "```\n") starts there and a fence follows; the body ends at the first fence after the opener |
| CodeUtils.Search | backend/code_utils.py:4 | `search`: None iff no index starts a match; otherwise the match at the leftmost such index |
| CodeUtils.ExtractCode | backend/code_utils.py:14-18 | the extracted script has no whitespace at either end |
| CodeUtils.ExtractCodeWithoutBlock | backend/code_utils.py:18 | without a fenced block the result is the whole text stripped |
| CodeUtils.ExtractCodeLeftmostBlock | backend/code_utils.py:15-17 | with a block the result is the stripped body of the leftmost one, ending at the first fence after its opener |
| CodeUtils.ExtractCodeEmpty | backend/code_utils.py:15 | an empty reply extracts to the empty script |
| CodeUtils.ShortLanguageTagIsNotABlock | backend/code_utils.py:4 | "```py\n…```" is no block, because the opener needs "python" or a newline right after the fence; the text is returned whole |
| CodeUtils.ExtractsLeftmostBody | backend/code_utils.py:14-17 | in "Sure:\n```Python\nprint(1)\n```\nok" the capitalised tag matches, and the result is "print(1)" |
| CodeUtils.ExtractedBodyHasNoFence | backend/code_utils.py:17 | a script extracted from a block contains no "```" |
| CodeUtils.StrippedHasNoBlock | backend/code_utils.py:18 | stripping text that holds no block cannot create one |
| CodeUtils.ExtractCodeIdempotent | backend/code_utils.py:14-18 | extracting twice gives the same as extracting once |
| CodeUtils.BannedTokens | backend/code_utils.py:6-11 | the backend's 30 tokens, verbatim and in their listed order |
| CodeUtils.LooksUnsafe | backend/code_utils.py:21-26 | `looks_unsafe` as the shared scan over the backend's tokens with the ending "' is not allowed in the sandbox."; characterised by `LooksUnsafeAccepts` and `LooksUnsafeRefuses` |
| CodeUtils.LooksUnsafeAccepts | backend/code_utils.py:21-26 | `looks_unsafe` returns None exactly when none of the backend tokens occurs in the lower-cased script |
| CodeUtils.LooksUnsafeRefuses | backend/code_utils.py:23-25 | when token k is the first listed token that occurs in the lower-cased script, `looks_unsafe` returns "Use of '<token k stripped>' is not allowed in the sandbox." |
| CodeUtils.LooksUnsafeIgnoresCase | backend/code_utils.py:22 | lower-casing the script first never changes the verdict |

## Left out

- `exec`/`compile`, `enforce_limits` (RLIMIT_CPU, RLIMIT_AS) and `time_limit` (SIGALRM) are not modelled. The host's `interpreter` function gives how execution ends, the captured streams, the figures left open, and the datasets and chart directory after the script's own file writes. Those writes are arbitrary; files outside the datasets and the chart directory are not modelled. The limits are named constants only.
- `exec` inserts `__builtins__` into the globals dictionary when it is absent, so the script can also reach `open`, `__import__`, `getattr` and the other builtins. That insertion is not modelled; the interpreter stands for whatever the script does with them.
- `signal.signal` in `time_limit` raises ValueError when it is called outside the main thread; in a threaded server every script that passes the denylist would then come back as `Raised`. The model does not distinguish threads: that case is one of the interpreter's `Raised` outcomes.
- RLIMIT_CPU is set for the whole process and never reset. In a long-lived worker it caps the CPU of all calls together, not of one script. The model has no CPU accounting.
- A failure of `enforce_limits` itself, and a kill for exceeding the CPU limit, are not modelled separately. The first is an exception caught like one from the script, so it falls under `Raised`. The second ends the whole process, so no result is returned.
- A `TimeoutError` the script raises itself takes the same branch as the alarm's. The model keeps the two apart: the alarm is `DeadlinePassed`, reported as `TimeLimitMessage`, and the script's own is `TimedOut` with its message.
- `traceback.format_exc(limit=3)` is not modelled: how a traceback is formatted is in the interpreter's hands. `TracebackLimit` records the depth as documentation only; no contract uses it.
- `pd.read_csv` is a lookup in the host's `datasets`. A path with no entry is where `read_csv` raises; that exception leaves `run_user_code`, and the model returns None. Parsing and dtype inference are not modelled.
- `DataFrame.to_dict(orient='records')` is not modelled: a table is kept as its column list and row sequence, each cell an opaque text.
- Of matplotlib, `get_fignums`/`savefig`/`close` become the host's figure sequence, a per-figure "save succeeds" flag and removal from that sequence. PNG rendering is not modelled, nor is a save that fails after writing part of a file. Only `savefig` can fail in the model. The handler around the loop also catches failures of `get_fignums`/`plt.figure` and of `plt.close`, which are not modelled. A `close` that raised after a successful save would leave `stem_k.png` written with no URL for it.
- CompletedResult, HeadRows, CollectCharts, AssembleCompleted: the script gets the real `pd` and `plt` modules and may rebind their attributes. It could replace `DataFrame.head` or `plt.close`, for example, and either change passes both denylists. The model assumes neither module is changed: the row bound of `head(200)` and the closing of saved figures hold only for such scripts. Module state carried from one call to the next in the long-lived worker is not modelled either.
- The interpreter is a fixed function of the script, its environment, the open figures, the datasets and the chart directory. The clock, randomness and any other process state are not among its inputs, so two runs on equal inputs are modelled as ending alike.
- The redirection of stdout and stderr is not modelled; the captured texts come from the interpreter.
- `CHART_DIR` creation and the `STORAGE_ROOT` environment variable are not modelled: the chart directory is a map from file name to the figure saved there, and a file the script writes there itself is represented the same way.
- CodeUtils.ExtractCode: `text or ''` with a None argument is not modelled. The parameter is declared `str`, and the caller always passes a string; the empty string is covered.
- Text.LowerChar: Python lower-cases every cased letter, but the model keeps non-ASCII letters unchanged except U+0130 and the Kelvin sign. Every other lower-case mapping yields only non-ASCII characters, and every token is ASCII, so no substring test changes.
- Python strings may hold lone surrogate code points; Dafny's `char` cannot, so such scripts are not modelled.
- Concurrency between worker processes sharing the chart directory is not modelled: calls are sequential on one `Host`.
