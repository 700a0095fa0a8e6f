/** The worker's sandbox: screen a script, run it against a freshly loaded dataset, and turn
    what it left behind (output slots, console text, open figures) into one result. */
module SandboxRuntime {
  import opened Options
  import opened Text
  import Seqs
  import Denylist

  // ---------------------------------------------------------------------------------------
  // Configuration
  // ---------------------------------------------------------------------------------------

  /** RLIMIT_CPU, in seconds. */
  const CpuLimitSeconds: nat := 5
  /** RLIMIT_AS, in bytes (best effort: a platform may refuse it). */
  const AddressSpaceLimitBytes: nat := 512 * 1024 * 1024
  /** The SIGALRM deadline, in seconds. */
  const WallLimitSeconds: nat := 5
  /** What the alarm handler's TimeoutError says. */
  const TimeLimitMessage: string := "Execution exceeded time limit"
  /** Depth of the traceback reported for a script that raised. */
  const TracebackLimit: nat := 3
  /** Rows kept from the result table. */
  const MaxTableRows: nat := 200
  /** The output slots, in the order they are tried. */
  const OutputSlots: seq<string> := ["out_df", "result_df", "result"]
  /** Public path under which saved charts are served. */
  const ChartUrlPrefix: string := "/static/charts/"

  // ---------------------------------------------------------------------------------------
  // _sanitize
  // ---------------------------------------------------------------------------------------

  /** The worker's denylist, in its own order. */
  const BannedTokens: seq<string> := [
    "import ", "__", " exec(", " eval(", "open(", "os.", "sys.", "subprocess",
    "socket", "requests", "http", "urllib", "pickle", "dill", "ctypes", "cffi",
    "multiprocessing", "thread", "input(", "compile(", "globals(", "locals("
  ]

  /** `_sanitize(code)`: the shared scan over the worker's list, with the worker's message. What it
      returns is stated by `SanitizeAccepts` and `RefusedWith`. */
  function Sanitize(code: string): (r: Option<string>)
  {
    Denylist.Screen(BannedTokens, code, "' is not allowed.")
  }

  /** `_sanitize` passes a script exactly when no worker token occurs in `code.lower()`. */
  lemma SanitizeAccepts(code: string)
    ensures Sanitize(code).None? <==> forall j :: 0 <= j < |BannedTokens| ==> !Contains(Lower(code), BannedTokens[j])
  {
  }

  /** The worker check ignores case. */
  lemma SanitizeIgnoresCase(code: string)
    ensures Sanitize(Lower(code)) == Sanitize(code)
  {
    Denylist.ScreenIgnoresCase(BannedTokens, code, "' is not allowed.");
  }

  /** The scenario `import os`: refused, and the message names the stripped token. */
  lemma ImportIsRefused(code: string)
    requires code == "import os"
    ensures Sanitize(code) == Some("Use of 'import' is not allowed.")
  {
    ImportIsListedFirst(code);
    RefusedWith(code, 0);
    StripImport(BannedTokens[0]);
    ImportMessage(Strip(BannedTokens[0]));
  }

  lemma ImportIsListedFirst(code: string)
    requires code == "import os"
    ensures Denylist.FirstListed(BannedTokens, Lower(code), 0)
  {
    LowerFixed(code);
    assert "import " <= code;
  }

  lemma StripImport(tok: string)
    requires tok == "import "
    ensures Strip(tok) == "import"
  {
    assert TrimStart(tok) == tok;
    assert tok[..6] == "import";
    assert TrimEnd(tok[..6]) == tok[..6];
  }

  lemma ImportMessage(word: string)
    requires word == "import"
    ensures "Use of '" + word + "' is not allowed." == "Use of 'import' is not allowed."
  {
  }

  /** Otherwise it refuses the script with the message for the first-listed token that occurs in
      `code.lower()`. */
  lemma RefusedWith(code: string, k: int)
    requires Denylist.FirstListed(BannedTokens, Lower(code), k)
    ensures Sanitize(code) == Some("Use of '" + Strip(BannedTokens[k]) + "' is not allowed.")
  {
  }

  /** The worker refuses dunder access anywhere, and its list order, not the position in the
      code, picks the token named: `os.` comes first in this script but `__` is listed first. */
  lemma DunderIsRefused(code: string)
    requires code == "os.sep + df.__doc__"
    ensures Sanitize(code) == Some("Use of '__' is not allowed.")
  {
    DunderIsListedFirst(code);
    RefusedWith(code, 1);
    StripStripped(BannedTokens[1]);
    DunderMessage(Strip(BannedTokens[1]));
  }

  lemma DunderIsListedFirst(code: string)
    requires code == "os.sep + df.__doc__"
    ensures Denylist.FirstListed(BannedTokens, Lower(code), 1)
  {
    SampleIsLowerCase(code);
    SampleLacksImport(code);
    SampleHasDunder(code);
  }

  lemma SampleIsLowerCase(code: string)
    requires code == "os.sep + df.__doc__"
    ensures Lower(code) == code
  {
    LowerFixed(code);
  }

  lemma SampleLacksImport(code: string)
    requires code == "os.sep + df.__doc__"
    ensures !Contains(code, "import ")
  {
    assert 'i' !in code;
    Absent(code, "import ");
  }

  lemma SampleHasDunder(code: string)
    requires code == "os.sep + df.__doc__"
    ensures Contains(code, "__")
  {
    assert OccursAt(code, "__", 12);
    ContainsIsOccurrence(code, "__");
  }

  lemma DunderMessage(word: string)
    requires word == "__"
    ensures "Use of '" + word + "' is not allowed." == "Use of '__' is not allowed."
  {
  }

  /** Text that lacks the first character of a token does not contain it. */
  lemma Absent(s: string, tok: string)
    requires tok != [] && tok[0] !in s
    ensures !Contains(s, tok)
  {
    ContainsIsOccurrence(s, tok);
  }

  // ---------------------------------------------------------------------------------------
  // What a script runs against and what it leaves behind
  // ---------------------------------------------------------------------------------------

  /** One cell of a row, as the records serialisation renders it. */
  datatype Cell = Cell(text: string)
  type Row = seq<Cell>

  /** A DataFrame: its ordered column names and its rows in order. */
  datatype Table = Table(columns: seq<string>, rows: seq<Row>)

  /** A binding of the execution environment: a DataFrame, a module, or anything else. */
  datatype Value = Frame(table: Table) | Module(name: string) | Other(repr: string)

  type Env = map<string, Value>

  /** `user_globals` before execution: pandas, pyplot and the loaded dataset, nothing else. */
  function InitialEnv(df: Table): (env: Env)
    ensures env.Keys == {"pd", "plt", "df"} && env["df"] == Frame(df)
  {
    map["pd" := Module("pandas"), "plt" := Module("matplotlib.pyplot"), "df" := Frame(df)]
  }

  /** An open pyplot figure: its number, and whether `savefig` on it succeeds. */
  datatype Figure = Figure(num: nat, savable: bool)

  /** How `exec` ended: normally with the final globals; with the TimeoutError the alarm handler
      raises once the deadline passes; with a TimeoutError the script raised itself, caught by
      the same handler; or with any other exception, reported as its traceback text. */
  datatype Outcome =
    | Completed(env: Env)
    | DeadlinePassed
    | TimedOut(message: string)
    | Raised(traceback: string)

  /** One execution: its end, the captured streams, the figures open when it ended, and the
      datasets and chart directory as the script's own file writes left them. */
  datatype Execution = Execution(outcome: Outcome, stdout: string, stderr: string, figures: seq<Figure>,
                                 datasets: map<string, Table>, charts: map<string, Figure>)

  /** The dictionary `run_user_code` returns. A failed run has only the keys ok, error, stdout
      and stderr; a completed one has all seven, with error None. */
  datatype ExecutionResult =
    | Failed(error: string, stdout: string, stderr: string)
    | Succeeded(stdout: string, stderr: string, table: Option<seq<Row>>,
                columns: Option<seq<string>>, chartUrls: seq<string>)
  {
    /** the "ok" key */
    predicate Ok() { Succeeded? }

    /** the "error" key */
    function Error(): Option<string> {
      if Failed? then Some(error) else None
    }
  }

  // ---------------------------------------------------------------------------------------
  // Result extraction
  // ---------------------------------------------------------------------------------------

  /** `isinstance(user_globals.get(key), pd.DataFrame)`. */
  predicate BoundToFrame(env: Env, key: string) {
    key in env && env[key].Frame?
  }

  /** `OutputSlots[i]` is the first slot bound to a DataFrame. */
  predicate FirstFrameSlot(env: Env, i: int) {
    0 <= i < |OutputSlots| && BoundToFrame(env, OutputSlots[i])
    && forall j :: 0 <= j < i ==> !BoundToFrame(env, OutputSlots[j])
  }

  /** The table the slot scan picks: the first slot bound to a DataFrame; others are skipped. */
  function SelectedTable(env: Env): (t: Option<Table>)
    ensures t.None? <==> forall i :: 0 <= i < |OutputSlots| ==> !BoundToFrame(env, OutputSlots[i])
    ensures forall i :: FirstFrameSlot(env, i) ==> t == Some(env[OutputSlots[i]].table)
  {
    match Seqs.FirstWhere(OutputSlots, key => BoundToFrame(env, key))
    case None => None
    case Some(i) =>
      assert FirstFrameSlot(env, i);
      assert forall i' :: FirstFrameSlot(env, i') ==> i' == i;
      Some(env[OutputSlots[i]].table)
  }

  /** The slot loop of `run_user_code`: try each slot in order and stop at the first DataFrame. */
  method SelectOutput(env: Env) returns (outDf: Option<Table>)
    ensures outDf == SelectedTable(env)
  {
    outDf := None;
    var i := 0;
    while i < |OutputSlots|
      invariant 0 <= i <= |OutputSlots|
      invariant forall j :: 0 <= j < i ==> !BoundToFrame(env, OutputSlots[j])
    {
      var key := OutputSlots[i];
      if key in env && env[key].Frame? {
        outDf := Some(env[key].table);
        assert FirstFrameSlot(env, i);
        break;
      }
      i := i + 1;
    }
  }

  function Min(a: nat, b: nat): nat {
    if a <= b then a else b
  }

  /** `df.head(200)`: the first rows, in order, at most 200 of them. */
  function HeadRows(rows: seq<Row>): (r: seq<Row>)
    ensures |r| == Min(MaxTableRows, |rows|)
    ensures r <= rows
  {
    if |rows| <= MaxTableRows then rows else rows[..MaxTableRows]
  }

  /** The result of a completed run: the selected table cut to 200 rows with its full column
      list (both None when no slot holds a DataFrame), the chart URLs, ok and no error. */
  function CompletedResult(stdout: string, stderr: string, env: Env, urls: seq<string>): (r: ExecutionResult)
    ensures r.Ok() && r.Error().None?
    ensures r.stdout == stdout && r.stderr == stderr && r.chartUrls == urls
    ensures r.table.None? <==> SelectedTable(env).None?
    ensures r.columns.None? <==> SelectedTable(env).None?
    ensures SelectedTable(env).Some? ==>
      var t := SelectedTable(env).value;
      |r.table.value| == Min(MaxTableRows, |t.rows|) && r.table.value <= t.rows
      && r.columns == Some(t.columns)
  {
    match SelectedTable(env)
    case None => Succeeded(stdout, stderr, None, None, urls)
    case Some(t) => Succeeded(stdout, stderr, Some(HeadRows(t.rows)), Some(t.columns), urls)
  }

  // ---------------------------------------------------------------------------------------
  // Chart naming
  // ---------------------------------------------------------------------------------------

  /** `os.path.basename(path)`: what follows the last '/'. */
  function Basename(path: string): (r: string)
    ensures |r| <= |path| && r == path[|path| - |r|..]
    ensures '/' !in r
    ensures |r| == |path| || path[|path| - |r| - 1] == '/'
  {
    if path == [] || path[|path| - 1] == '/' then []
    else Basename(path[..|path| - 1]) + [path[|path| - 1]]
  }

  /** `s.split('.')[0]`: what precedes the first '.'. */
  function UpToFirstDot(s: string): (r: string)
    ensures r <= s && '.' !in r
    ensures r == s || s[|r|] == '.'
  {
    if s == [] || s[0] == '.' then [] else [s[0]] + UpToFirstDot(s[1..])
  }

  /** The stem chart names are built from: the dataset file's name up to its first '.'. */
  function ChartStem(csvPath: string): string {
    UpToFirstDot(Basename(csvPath))
  }

  /** `f"{stem}_{k}.png"`. */
  function ChartName(stem: string, k: nat): string {
    stem + "_" + DecimalString(k) + ".png"
  }

  /** `f"/static/charts/{name}"`. */
  function ChartUrl(name: string): string {
    ChartUrlPrefix + name
  }

  /** Different indices give different names. */
  lemma ChartNameInjective(stem: string, a: nat, b: nat)
    requires ChartName(stem, a) == ChartName(stem, b)
    ensures a == b
  {
    var na, nb := ChartName(stem, a), ChartName(stem, b);
    var da, db := DecimalString(a), DecimalString(b);
    assert |da| == |db|;
    assert na[|stem| + 1..|stem| + 1 + |da|] == da;
    assert nb[|stem| + 1..|stem| + 1 + |db|] == db;
    DecimalStringInjective(a, b);
  }

  /** The URLs of the first `n` collected charts, in collection order. */
  function ChartUrls(stem: string, n: nat): (r: seq<string>)
    ensures |r| == n
    ensures forall k :: 0 <= k < n ==> r[k] == ChartUrl(ChartName(stem, k + 1))
  {
    if n == 0 then [] else ChartUrls(stem, n - 1) + [ChartUrl(ChartName(stem, n))]
  }

  /** Different indices give different URLs. */
  lemma ChartUrlInjective(stem: string, a: nat, b: nat)
    requires ChartUrl(ChartName(stem, a)) == ChartUrl(ChartName(stem, b))
    ensures a == b
  {
    var p := |ChartUrlPrefix|;
    assert ChartUrl(ChartName(stem, a))[p..] == ChartName(stem, a);
    assert ChartUrl(ChartName(stem, b))[p..] == ChartName(stem, b);
    ChartNameInjective(stem, a, b);
  }

  /** Within one call, the chart URLs are pairwise distinct. */
  lemma ChartUrlsDistinct(stem: string, n: nat)
    ensures forall i, j :: 0 <= i < j < n ==> ChartUrls(stem, n)[i] != ChartUrls(stem, n)[j]
  {
    var urls := ChartUrls(stem, n);
    forall i, j | 0 <= i < j < n ensures urls[i] != urls[j] {
      if urls[i] == urls[j] {
        ChartUrlInjective(stem, i + 1, j + 1);
      }
    }
  }

  /** The basename of `head/tail` is `tail` when `tail` holds no '/'. */
  lemma {:induction false} BasenameOfJoin(head: string, tail: string)
    requires '/' !in tail
    ensures Basename(head + "/" + tail) == tail
  {
    var path := head + "/" + tail;
    if tail != [] {
      var init := tail[..|tail| - 1];
      assert path[..|path| - 1] == head + "/" + init;
      assert path[|path| - 1] == tail[|tail| - 1];
      BasenameOfJoin(head, init);
      assert init + [tail[|tail| - 1]] == tail;
    }
  }

  /** What precedes the first dot of `name + ext` is `name` when `name` has no '.' and `ext` is
      empty or starts with one. */
  lemma {:induction false} UpToFirstDotOfJoin(name: string, ext: string)
    requires '.' !in name && (ext == [] || ext[0] == '.')
    ensures UpToFirstDot(name + ext) == name
  {
    if name == [] {
      assert name + ext == ext;
    } else {
      assert (name + ext)[0] == name[0];
      assert (name + ext)[1..] == name[1..] + ext;
      UpToFirstDotOfJoin(name[1..], ext);
    }
  }

  /** The stem of `dir/name.ext...` is `name`, whatever the directory and the extensions. */
  lemma StemOf(dir: string, name: string, ext: string)
    requires '/' !in name && '.' !in name && '/' !in ext && (ext == [] || ext[0] == '.')
    ensures ChartStem(dir + "/" + name + ext) == name
  {
    assert dir + "/" + name + ext == dir + "/" + (name + ext);
    BasenameOfJoin(dir, name + ext);
    UpToFirstDotOfJoin(name, ext);
  }

  /** Two datasets with the same file name up to the first dot share chart names, whatever
      their directories and extensions. */
  lemma StemIgnoresDirectory(p: string, q: string)
    requires p == "/data/u1/sales.csv" && q == "/data/u2/sales.v2.csv"
    ensures ChartStem(p) == ChartStem(q) == "sales"
  {
    SamplePaths(p, q);
    StemOf("/data/u1", "sales", ".csv");
    StemOf("/data/u2", "sales", ".v2.csv");
  }

  lemma SamplePaths(p: string, q: string)
    requires p == "/data/u1/sales.csv" && q == "/data/u2/sales.v2.csv"
    ensures p == "/data/u1" + "/" + "sales" + ".csv"
    ensures q == "/data/u2" + "/" + "sales" + ".v2.csv"
  {
  }

  // ---------------------------------------------------------------------------------------
  // Chart collection
  // ---------------------------------------------------------------------------------------

  /** How many figures the loop saves: those before the first one whose `savefig` fails. */
  function SavedCount(figs: seq<Figure>): (r: nat)
    ensures r <= |figs|
    ensures forall j :: 0 <= j < r ==> figs[j].savable
    ensures r == |figs| || !figs[r].savable
  {
    if figs == [] || !figs[0].savable then 0 else 1 + SavedCount(figs[1..])
  }

  /** The chart directory after the first `n` figures were saved as stem_1.png .. stem_n.png;
      each save writes (or overwrites) one file. */
  function Saved(dir: map<string, Figure>, stem: string, figs: seq<Figure>, n: nat): map<string, Figure>
    requires n <= |figs|
  {
    if n == 0 then dir else Saved(dir, stem, figs, n - 1)[ChartName(stem, n) := figs[n - 1]]
  }

  /** The names stem_1.png .. stem_n.png. */
  function ChartNames(stem: string, n: nat): (r: set<string>)
    ensures forall k :: 1 <= k <= n ==> ChartName(stem, k) in r
  {
    if n == 0 then {} else ChartNames(stem, n - 1) + {ChartName(stem, n)}
  }

  /** After `n` saves the directory holds the k-th figure under stem_k.png, and every other file
      as it was. */
  lemma {:induction false} SavedContents(dir: map<string, Figure>, stem: string, figs: seq<Figure>, n: nat)
    requires n <= |figs|
    ensures Saved(dir, stem, figs, n).Keys == dir.Keys + ChartNames(stem, n)
    ensures forall k :: 1 <= k <= n ==>
      ChartName(stem, k) in Saved(dir, stem, figs, n) && Saved(dir, stem, figs, n)[ChartName(stem, k)] == figs[k - 1]
    ensures forall name :: name in dir && name !in ChartNames(stem, n) ==>
      Saved(dir, stem, figs, n)[name] == dir[name]
  {
    if n > 0 {
      SavedContents(dir, stem, figs, n - 1);
      forall k | 1 <= k < n ensures ChartName(stem, k) != ChartName(stem, n) {
        if ChartName(stem, k) == ChartName(stem, n) {
          ChartNameInjective(stem, k, n);
        }
      }
    }
  }

  /** A later call on a dataset with the same stem overwrites the earlier call's first chart. */
  lemma LaterCallOverwritesChart(dir: map<string, Figure>, stem: string,
                                 first: seq<Figure>, p: nat, second: seq<Figure>, q: nat)
    requires p <= |first| && 1 <= q <= |second|
    ensures var later := Saved(Saved(dir, stem, first, p), stem, second, q);
      ChartName(stem, 1) in later && later[ChartName(stem, 1)] == second[0]
  {
    SavedContents(Saved(dir, stem, first, p), stem, second, q);
  }

  /** `xs` without the first occurrence of `x`: what `plt.close(fig)` does to the open figures. */
  function RemoveFirst(xs: seq<Figure>, x: Figure): (r: seq<Figure>)
    ensures multiset(r) == multiset(xs) - multiset{x}
  {
    if xs == [] then []
    else
      assert xs == [xs[0]] + xs[1..];
      if xs[0] == x then xs[1..] else [xs[0]] + RemoveFirst(xs[1..], x)
  }

  /** Removing a figure that is not open leaves the open figures as they were. */
  lemma {:induction false} RemoveFirstAbsent(xs: seq<Figure>, x: Figure)
    requires x !in xs
    ensures RemoveFirst(xs, x) == xs
  {
    if xs != [] {
      assert xs[1..] + [] == xs[1..];
      RemoveFirstAbsent(xs[1..], x);
    }
  }

  /** Removing a figure takes out its first occurrence, at `i`, and keeps the others in order. */
  lemma {:induction false} RemoveFirstAt(xs: seq<Figure>, x: Figure, i: int)
    requires 0 <= i < |xs| && xs[i] == x && x !in xs[..i]
    ensures RemoveFirst(xs, x) == xs[..i] + xs[i + 1..]
  {
    if i > 0 {
      assert xs[0] == xs[..i][0];
      assert xs[1..][..i - 1] == xs[1..i];
      assert xs[1..i] == xs[..i][1..];
      RemoveFirstAt(xs[1..], x, i - 1);
      assert xs[1..][i..] == xs[i + 1..];
      assert [xs[0]] + xs[1..i] == xs[..i];
    }
  }

  /** The process-wide state the sandbox touches: the CSV files it can read, pyplot's open
      figures, the shared chart directory, and the interpreter. The worker process is long-lived,
      so figures left open by one call are still open at the next. */
  class Host {
    /** The files `pd.read_csv` can parse, by path. */
    var datasets: map<string, Table>
    /** pyplot's open figures, in `get_fignums()` order. */
    var figures: seq<Figure>
    /** The files of the chart directory, by name. */
    var charts: map<string, Figure>
    /** How many scripts were handed to `exec`. */
    var executions: nat
    /** What `exec` of a script does, given the globals, the figures open beforehand, the
        datasets and the chart directory (the script may write files itself). */
    const interpreter: (string, Env, seq<Figure>, map<string, Table>, map<string, Figure>) -> Execution

    constructor (datasets: map<string, Table>,
                 interpreter: (string, Env, seq<Figure>, map<string, Table>, map<string, Figure>) -> Execution)
      ensures this.datasets == datasets && this.interpreter == interpreter
      ensures figures == [] && charts == map[] && executions == 0
    {
      this.datasets := datasets;
      this.interpreter := interpreter;
      figures := [];
      charts := map[];
      executions := 0;
    }

    /** `exec` under the limits and the stream redirection. The script's own effects on pyplot
        and on the file system replace the old figures, datasets and chart directory. */
    method Execute(code: string, env: Env) returns (x: Execution)
      modifies this`figures, this`executions, this`datasets, this`charts
      ensures x == interpreter(code, env, old(figures), old(datasets), old(charts))
      ensures figures == x.figures && datasets == x.datasets && charts == x.charts
      ensures executions == old(executions) + 1
    {
      x := interpreter(code, env, figures, datasets, charts);
      figures := x.figures;
      datasets := x.datasets;
      charts := x.charts;
      executions := executions + 1;
    }

    /** `fig.savefig(CHART_DIR/name)`: writes the file, or raises and writes nothing. */
    method SaveFigure(fig: Figure, name: string) returns (saved: bool)
      modifies this`charts
      ensures saved == fig.savable
      ensures charts == if saved then old(charts)[name := fig] else old(charts)
    {
      saved := fig.savable;
      if saved {
        charts := charts[name := fig];
      }
    }

    /** `plt.close(fig)`. */
    method CloseFigure(fig: Figure)
      modifies this`figures
      ensures figures == RemoveFirst(old(figures), fig)
    {
      figures := RemoveFirst(figures, fig);
    }
  }

  /** The chart loop: save each open figure as stem_k.png, k = 1, 2, ..., close it and record its
      URL. The first failing save ends the loop; earlier URLs are kept, and that figure and the
      ones after it stay open. */
  method CollectCharts(host: Host, stem: string) returns (urls: seq<string>)
    modifies host`charts, host`figures
    ensures urls == ChartUrls(stem, SavedCount(old(host.figures)))
    ensures host.figures == old(host.figures)[SavedCount(old(host.figures))..]
    ensures host.charts == Saved(old(host.charts), stem, old(host.figures), SavedCount(old(host.figures)))
  {
    var figs := host.figures;
    urls := [];
    var i := 0;
    while i < |figs|
      invariant i <= SavedCount(figs)
      invariant urls == ChartUrls(stem, i)
      invariant host.figures == figs[i..]
      invariant host.charts == Saved(old(host.charts), stem, figs, i)
    {
      var fig := figs[i];
      var name := ChartName(stem, |urls| + 1);
      var saved := host.SaveFigure(fig, name);
      if !saved {
        break;
      }
      assert host.charts == Saved(old(host.charts), stem, figs, i + 1);
      RemoveFirstAt(host.figures, fig, 0);
      host.CloseFigure(fig);
      assert host.figures == figs[i + 1..];
      urls := urls + [ChartUrl(name)];
      i := i + 1;
    }
  }

  // ---------------------------------------------------------------------------------------
  // run_user_code
  // ---------------------------------------------------------------------------------------

  /** What the sandbox returns, leaves open and leaves in the chart directory once `exec` ended
      as `x`. The alarm yields ok=false with the time-limit message, any other TimeoutError or
      exception ok=false with its message or traceback, both with the captured streams and no
      chart collected; a normal end yields the completed result and the charts saved, on top of
      whatever the script wrote, up to the first failing save. */
  function Assemble(x: Execution, stem: string): (after: Aftermath)
  {
    match x.outcome
    case DeadlinePassed => Aftermath(Failed(TimeLimitMessage, x.stdout, x.stderr), x.figures, x.charts)
    case TimedOut(message) => Aftermath(Failed(message, x.stdout, x.stderr), x.figures, x.charts)
    case Raised(traceback) => Aftermath(Failed(traceback, x.stdout, x.stderr), x.figures, x.charts)
    case Completed(env) =>
      var p := SavedCount(x.figures);
      Aftermath(CompletedResult(x.stdout, x.stderr, env, ChartUrls(stem, p)),
                x.figures[p..], Saved(x.charts, stem, x.figures, p))
  }

  /** How the returned dictionary reflects the way `exec` ended. */
  lemma AssembleReports(x: Execution, stem: string)
    ensures Assemble(x, stem).result.Ok() <==> x.outcome.Completed?
    ensures x.outcome.DeadlinePassed? ==> Assemble(x, stem).result.Error() == Some(TimeLimitMessage)
    ensures x.outcome.TimedOut? ==> Assemble(x, stem).result.Error() == Some(x.outcome.message)
    ensures x.outcome.Raised? ==> Assemble(x, stem).result.Error() == Some(x.outcome.traceback)
    ensures Assemble(x, stem).result.stdout == x.stdout && Assemble(x, stem).result.stderr == x.stderr
    ensures !x.outcome.Completed? ==> Assemble(x, stem).figures == x.figures && Assemble(x, stem).charts == x.charts
    ensures x.outcome.Completed? ==>
      var p := SavedCount(x.figures);
      var after := Assemble(x, stem);
      after.result == CompletedResult(x.stdout, x.stderr, x.outcome.env, ChartUrls(stem, p))
      && after.figures == x.figures[p..] && after.charts == Saved(x.charts, stem, x.figures, p)
  {
  }

  /** The returned dictionary together with the figures left open and the chart directory. */
  datatype Aftermath = Aftermath(result: ExecutionResult, figures: seq<Figure>, charts: map<string, Figure>)

  /** `run_user_code(code, csv_path)`. `None` stands for the exception `pd.read_csv` raises out of
      the call when the dataset cannot be read. */
  method RunUserCode(host: Host, code: string, csvPath: string) returns (r: Option<ExecutionResult>)
    modifies host
    ensures Sanitize(code).Some? ==>
      r == Some(Failed(Sanitize(code).value, "", Sanitize(code).value)) && unchanged(host)
    ensures Sanitize(code).None? && csvPath !in old(host.datasets) ==> r.None? && unchanged(host)
    ensures Sanitize(code).None? && csvPath in old(host.datasets) ==>
      var x := host.interpreter(code, InitialEnv(old(host.datasets)[csvPath]), old(host.figures),
                                old(host.datasets), old(host.charts));
      host.executions == old(host.executions) + 1 && host.datasets == x.datasets
    ensures Sanitize(code).None? && csvPath in old(host.datasets) ==>
      var x := host.interpreter(code, InitialEnv(old(host.datasets)[csvPath]), old(host.figures),
                                old(host.datasets), old(host.charts));
      r == Some(Assemble(x, ChartStem(csvPath)).result)
    ensures Sanitize(code).None? && csvPath in old(host.datasets) ==>
      var x := host.interpreter(code, InitialEnv(old(host.datasets)[csvPath]), old(host.figures),
                                old(host.datasets), old(host.charts));
      var after := Assemble(x, ChartStem(csvPath));
      host.figures == after.figures && host.charts == after.charts
  {
    var unsafe := Sanitize(code);
    if unsafe.Some? {
      return Some(Failed(unsafe.value, "", unsafe.value));
    }
    r := RunScreened(host, code, csvPath);
  }

  /** `run_user_code` once the script passed the denylist: read the CSV (an unreadable one
      escapes as an exception) and run the script on it. */
  method RunScreened(host: Host, code: string, csvPath: string) returns (r: Option<ExecutionResult>)
    modifies host`figures, host`executions, host`datasets, host`charts
    ensures csvPath !in old(host.datasets) ==> r.None? && unchanged(host)
    ensures csvPath in old(host.datasets) ==>
      var x := host.interpreter(code, InitialEnv(old(host.datasets)[csvPath]), old(host.figures),
                                old(host.datasets), old(host.charts));
      host.executions == old(host.executions) + 1 && host.datasets == x.datasets
    ensures csvPath in old(host.datasets) ==>
      var x := host.interpreter(code, InitialEnv(old(host.datasets)[csvPath]), old(host.figures),
                                old(host.datasets), old(host.charts));
      r == Some(Assemble(x, ChartStem(csvPath)).result)
    ensures csvPath in old(host.datasets) ==>
      var x := host.interpreter(code, InitialEnv(old(host.datasets)[csvPath]), old(host.figures),
                                old(host.datasets), old(host.charts));
      var after := Assemble(x, ChartStem(csvPath));
      host.figures == after.figures && host.charts == after.charts
  {
    if csvPath !in host.datasets {
      return None;   // `pd.read_csv` raises, and the exception leaves the function
    }
    var result := RunLoaded(host, code, host.datasets[csvPath], ChartStem(csvPath));
    r := Some(result);
  }

  /** The part of `run_user_code` after the script passed the denylist and the CSV was read:
      run it under the limits, then turn its end into the returned dictionary. */
  method RunLoaded(host: Host, code: string, df: Table, stem: string) returns (r: ExecutionResult)
    modifies host`figures, host`executions, host`datasets, host`charts
    ensures var x := host.interpreter(code, InitialEnv(df), old(host.figures), old(host.datasets), old(host.charts));
      var after := Assemble(x, stem);
      r == after.result && host.figures == after.figures && host.charts == after.charts
      && host.datasets == x.datasets
    ensures host.executions == old(host.executions) + 1
  {
    var x := host.Execute(code, InitialEnv(df));
    match x.outcome {
      case DeadlinePassed =>
        r := Failed(TimeLimitMessage, x.stdout, x.stderr);
      case TimedOut(message) =>
        r := Failed(message, x.stdout, x.stderr);
      case Raised(traceback) =>
        r := Failed(traceback, x.stdout, x.stderr);
      case Completed(env) =>
        r := AssembleCompleted(host, x.stdout, x.stderr, env, stem);
    }
  }

  /** What follows a normal return of `exec`: pick and truncate the table, then collect the
      charts. */
  method AssembleCompleted(host: Host, stdout: string, stderr: string, env: Env, stem: string)
    returns (r: ExecutionResult)
    modifies host`charts, host`figures
    ensures r == CompletedResult(stdout, stderr, env, ChartUrls(stem, SavedCount(old(host.figures))))
    ensures host.figures == old(host.figures)[SavedCount(old(host.figures))..]
    ensures host.charts == Saved(old(host.charts), stem, old(host.figures), SavedCount(old(host.figures)))
  {
    var outDf := SelectOutput(env);
    var table: Option<seq<Row>> := None;
    var columns: Option<seq<string>> := None;
    if outDf.Some? {
      table := Some(HeadRows(outDf.value.rows));
      columns := Some(outDf.value.columns);
    }
    var urls := CollectCharts(host, stem);
    r := Succeeded(stdout, stderr, table, columns, urls);
  }
}
