/** The `generateAvro` build task: compile every `.avsc` schema of the input directory, retrying
    the files whose parse or compile failed until a whole pass makes no progress. The Avro parser
    and compiler are an oracle; the set of type names stands for the `validTypes` map. */
module AvroBuild {
  import opened Common
  import opened Text

  datatype SchemaFile = SchemaFile(name: string)

  /** Kotlin's `File.extension`: `substringAfterLast('.', "")` of the name. */
  function Extension(name: string): string
    decreases |name|
  {
    if |name| == 0 || name[|name| - 1] == '.' then ""
    else if '.' in name[..|name| - 1] then Extension(name[..|name| - 1]) + [name[|name| - 1]]
    else ""
  }

  /** The extension is the dot-free tail of the name after its last '.', and empty when the
      name has no '.'. */
  lemma {:induction false} ExtensionShape(name: string)
    ensures var r := Extension(name);
            && '.' !in r
            && |r| <= |name| && r == name[|name| - |r|..]
            && ('.' in name ==> |r| < |name| && name[|name| - |r| - 1] == '.')
            && ('.' !in name ==> r == "")
    decreases |name|
  {
    if |name| > 0 && name[|name| - 1] != '.' {
      var init, c := name[..|name| - 1], name[|name| - 1];
      assert name == init + [c];
      if '.' in init {
        ExtensionShape(init);
        var r := Extension(init);
        assert Extension(name) == r + [c];
        assert init[|init| - |r|..] + [c] == name[|name| - |r| - 1..];
        assert name[|name| - |r| - 2] == init[|init| - |r| - 1];
      } else {
        assert '.' !in name;
      }
    }
  }

  /** A name has extension `avsc` exactly when it ends with ".avsc". */
  lemma AvscIffSuffix(name: string)
    ensures Extension(name) == "avsc" <==> EndsWith(name, ".avsc")
  {
    ExtensionShape(name);
    var r := Extension(name);
    if r == "avsc" {
      assert '.' in name;
      assert name[|name| - 5..] == [name[|name| - 5]] + name[|name| - 4..];
    }
    if EndsWith(name, ".avsc") {
      assert name[|name| - 5] == '.';
      assert '.' in name;
      assert r == name[|name| - 4..] == name[|name| - 5..][1..];
    }
  }

  /** `inputDir.listFiles { f -> f.extension == "avsc" }`, in listing order. */
  function AvroSources(dir: seq<SchemaFile>): (r: seq<SchemaFile>)
    ensures forall f :: f in r <==> f in dir && Extension(f.name) == "avsc"
    ensures |r| <= |dir|
    ensures Distinct(dir) ==> Distinct(r)
    decreases |dir|
  {
    if |dir| == 0 then []
    else
      var rest := AvroSources(dir[1..]);
      assert forall f :: f in dir <==> f == dir[0] || f in dir[1..];
      if Extension(dir[0].name) == "avsc" then
        assert Distinct(dir) ==> dir[0] !in dir[1..];
        [dir[0]] + rest
      else rest
  }

  /** Only the files whose names end with ".avsc" are compiled. */
  lemma SourcesAreAvsc(dir: seq<SchemaFile>, f: SchemaFile)
    ensures f in AvroSources(dir) <==> f in dir && EndsWith(f.name, ".avsc")
  {
    AvscIffSuffix(f.name);
  }

  /** What the parser reports: the type names it then knows (`getTypes`), or an exception. */
  datatype Parsed = Parsed(types: set<string>) | ParseError(message: string)

  /** The oracle: parsing a file with the already valid types injected, and compiling it. */
  datatype Tools = Tools(parse: (SchemaFile, set<string>) -> Parsed, compile: SchemaFile -> Option<string>)

  /** The known types after one attempt, and its failure cause when it failed. */
  datatype Attempt = Attempt(known: set<string>, error: Option<string>)

  /** The `try` block for one file: a new parser, the known types injected, the parse, `putAll` of
      the parser's types, then the compile. A compile failure still leaves the types added. */
  function TryFile(tools: Tools, f: SchemaFile, known: set<string>): (r: Attempt)
    ensures known <= r.known
    ensures r.error.None? <==> tools.parse(f, known).Parsed? && tools.compile(f).None?
    ensures tools.parse(f, known).ParseError? ==> r == Attempt(known, Some(tools.parse(f, known).message))
  {
    match tools.parse(f, known)
    case ParseError(m) => Attempt(known, Some(m))
    case Parsed(types) => Attempt(known + types, tools.compile(f))
  }

  /** The state after one pass over the pending files. */
  datatype PassOut = PassOut(pending: seq<SchemaFile>, processed: seq<SchemaFile>, known: set<string>, failed: map<SchemaFile, string>)

  /** One run of the inner loop: each file is tried in order; a success is moved to `processed`
      and its `failedFiles` entry removed, a failure stays pending with its cause recorded. */
  function Pass(tools: Tools, files: seq<SchemaFile>, known: set<string>, failed: map<SchemaFile, string>): (r: PassOut)
    ensures |r.pending| + |r.processed| == |files|
    ensures forall f :: f in r.pending || f in r.processed ==> f in files
    ensures known <= r.known
    decreases |files|
  {
    if |files| == 0 then PassOut([], [], known, failed)
    else
      var f := files[0];
      var a := TryFile(tools, f, known);
      var failed' := if a.error.None? then failed - {f} else failed[f := a.error.value];
      var rest := Pass(tools, files[1..], a.known, failed');
      if a.error.None? then PassOut(rest.pending, [f] + rest.processed, rest.known, rest.failed)
      else PassOut([f] + rest.pending, rest.processed, rest.known, rest.failed)
  }

  /** A pass splits the pending files into those it compiled and those still pending, the known
      types only grow, and a file is compiled only after its parse and its compile both
      succeeded. */
  lemma {:induction false} PassSplits(tools: Tools, files: seq<SchemaFile>, known: set<string>, failed: map<SchemaFile, string>)
    ensures var r := Pass(tools, files, known, failed);
            && known <= r.known
            && multiset(r.pending) + multiset(r.processed) == multiset(files)
            && (forall f :: f in r.processed ==>
                  exists k :: known <= k && tools.parse(f, k).Parsed? && tools.compile(f).None?)
    decreases |files|
  {
    if |files| > 0 {
      var f := files[0];
      var a := TryFile(tools, f, known);
      var failed' := if a.error.None? then failed - {f} else failed[f := a.error.value];
      PassSplits(tools, files[1..], a.known, failed');
      assert files == [f] + files[1..];
    }
  }

  /** The parser and the compiler accept `f` whatever types are known. */
  ghost predicate AlwaysCompiles(tools: Tools, f: SchemaFile) {
    forall k :: tools.parse(f, k).Parsed? && tools.compile(f).None?
  }

  /** Every file of `files` always compiles: no schema depends on another. */
  ghost predicate AllAlwaysCompile(tools: Tools, files: seq<SchemaFile>) {
    forall f :: f in files ==> AlwaysCompiles(tools, f)
  }

  /** The parser accepts `f` with some set of known types and the compiler accepts it. */
  ghost predicate CanCompile(tools: Tools, f: SchemaFile) {
    exists k :: tools.parse(f, k).Parsed? && tools.compile(f).None?
  }

  /** `f` was compiled from a parse that saw only types of `k0`, and every type that parse
      defined is in `k0`: the types `f` needs and provides are all still known. */
  ghost predicate CompiledWithin(tools: Tools, f: SchemaFile, k0: set<string>) {
    exists k :: k <= k0 && tools.parse(f, k).Parsed? && tools.parse(f, k).types <= k0 && tools.compile(f).None?
  }

  /** Known types are never dropped, so a file compiled within some types stays so as they grow. */
  lemma CompiledWithinGrows(tools: Tools, f: SchemaFile, k0: set<string>, k1: set<string>)
    requires CompiledWithin(tools, f, k0) && k0 <= k1
    ensures CompiledWithin(tools, f, k1)
  {
  }

  /** The types a pass compiles from are kept: every file it compiles was parsed from types the
      pass ends up knowing, and the types that parse defined are known at the end as well. */
  lemma {:induction false} PassKeepsTypes(tools: Tools, files: seq<SchemaFile>, known: set<string>, failed: map<SchemaFile, string>)
    ensures forall f :: f in Pass(tools, files, known, failed).processed ==>
                          CompiledWithin(tools, f, Pass(tools, files, known, failed).known)
    decreases |files|
  {
    if |files| > 0 {
      var f := files[0];
      var a := TryFile(tools, f, known);
      var failed' := if a.error.None? then failed - {f} else failed[f := a.error.value];
      PassKeepsTypes(tools, files[1..], a.known, failed');
      var rest := Pass(tools, files[1..], a.known, failed');
      var r := Pass(tools, files, known, failed);
      assert r.known == rest.known;
      if a.error.None? {
        assert r.processed == [f] + rest.processed;
        assert a.known == known + tools.parse(f, known).types;
        assert known <= rest.known && tools.parse(f, known).types <= rest.known;
        assert CompiledWithin(tools, f, rest.known);
        forall g | g in r.processed ensures CompiledWithin(tools, g, r.known) {
          assert g == f || g in rest.processed;
        }
      } else {
        assert r.processed == rest.processed;
      }
    }
  }

  /** When every pending file always compiles, one pass compiles them all, in order. */
  lemma {:induction false} PassAllCompile(tools: Tools, files: seq<SchemaFile>, known: set<string>, failed: map<SchemaFile, string>)
    requires AllAlwaysCompile(tools, files)
    ensures Pass(tools, files, known, failed).processed == files
    ensures Pass(tools, files, known, failed).pending == []
    decreases |files|
  {
    if |files| > 0 {
      var f := files[0];
      assert AlwaysCompiles(tools, f);
      assert tools.parse(f, known).Parsed?;
      var a := TryFile(tools, f, known);
      assert a.error.None?;
      assert forall g :: g in files[1..] ==> g in files;
      PassAllCompile(tools, files[1..], a.known, failed - {f});
      assert files == [f] + files[1..];
    }
  }

  /** After a pass `failedFiles` holds every file still pending and none of the compiled ones
      (the files being pairwise different), and keeps the entries of other files unchanged. */
  lemma {:induction false} PassRecordsFailures(tools: Tools, files: seq<SchemaFile>, known: set<string>, failed: map<SchemaFile, string>)
    ensures var r := Pass(tools, files, known, failed);
            && (forall f :: f in failed && f !in files ==> f in r.failed && r.failed[f] == failed[f])
            && (forall f :: f in r.failed ==> f in failed || f in files)
            && (Distinct(files) ==> forall f :: f in r.pending ==> f in r.failed)
            && (Distinct(files) ==> forall f :: f in r.processed ==> f !in r.failed)
    decreases |files|
  {
    if |files| > 0 {
      var f := files[0];
      var a := TryFile(tools, f, known);
      var failed' := if a.error.None? then failed - {f} else failed[f := a.error.value];
      PassRecordsFailures(tools, files[1..], a.known, failed');
      assert forall g :: g in files <==> g == f || g in files[1..];
      assert Distinct(files) ==> f !in files[1..] && Distinct(files[1..]);
    }
  }

  /** How `generateAvro` ends: every source compiled, or the exception thrown after a pass that
      compiled nothing, with the pending files, their recorded causes and the types known when
      that last pass began. */
  datatype Outcome =
    | Generated(compiled: seq<SchemaFile>, known: set<string>)
    | Unresolved(pending: seq<SchemaFile>, failed: map<SchemaFile, string>, compiled: seq<SchemaFile>,
                 before: set<string>, known: set<string>)

  /** The outer `while (files.isNotEmpty())` loop from a given state: one pass over the pending
      files, then the exception if that pass compiled nothing, or another round with the files
      still pending. */
  function Run(tools: Tools, files: seq<SchemaFile>, known: set<string>, failed: map<SchemaFile, string>,
               compiled: seq<SchemaFile>): (r: Outcome)
    requires Distinct(files) && forall f :: f in failed ==> f in files
    ensures known <= r.known
    ensures r.Unresolved? ==> known <= r.before <= r.known && |r.pending| > 0
    ensures |files| > 0 && Pass(tools, files, known, failed).processed == [] ==>
              r == Unresolved(files, Pass(tools, files, known, failed).failed, compiled, known,
                              Pass(tools, files, known, failed).known)
    decreases |files|
  {
    if |files| == 0 then Generated(compiled, known)
    else
      var out := Pass(tools, files, known, failed);
      PassOutcome(tools, files, known, failed);
      if |out.processed| == 0 then Unresolved(files, out.failed, compiled, known, out.known)
      else Run(tools, out.pending, out.known, out.failed, compiled + out.processed)
  }

  /** Each pass either compiles at least one pending file or throws, so the loop ends, and no
      file is lost or repeated: on normal exit every pending file was compiled exactly once; on
      the exception some files are still pending and the others were compiled once. */
  lemma {:induction false} RunKeepsFiles(tools: Tools, files: seq<SchemaFile>, known: set<string>,
                                         failed: map<SchemaFile, string>, compiled: seq<SchemaFile>)
    requires Distinct(files) && forall f :: f in failed ==> f in files
    ensures var r := Run(tools, files, known, failed, compiled);
            && (r.Generated? ==> multiset(r.compiled) == multiset(compiled) + multiset(files))
            && (r.Unresolved? ==>
                  |r.pending| > 0 && multiset(r.compiled) + multiset(r.pending) == multiset(compiled) + multiset(files))
    decreases |files|
  {
    if |files| > 0 {
      var out := Pass(tools, files, known, failed);
      if |out.processed| > 0 {
        assert Distinct(out.pending) && (forall f :: f in out.failed ==> f in out.pending) && |out.pending| < |files| by {
          PassOutcome(tools, files, known, failed);
        }
        var compiled' := compiled + out.processed;
        assert Run(tools, files, known, failed, compiled) == Run(tools, out.pending, out.known, out.failed, compiled');
        RunKeepsFiles(tools, out.pending, out.known, out.failed, compiled');
        assert multiset(compiled') + multiset(out.pending) == multiset(compiled) + multiset(files) by {
          PassSplits(tools, files, known, failed);
        }
      }
    }
  }

  /** On the exception the last pass, replayed from the types known when it began, compiles
      nothing, and `failedFiles` names exactly the pending files. */
  lemma {:induction false} RunStuck(tools: Tools, files: seq<SchemaFile>, known: set<string>,
                                    failed: map<SchemaFile, string>, compiled: seq<SchemaFile>)
    requires Distinct(files) && forall f :: f in failed ==> f in files
    ensures var r := Run(tools, files, known, failed, compiled);
            r.Unresolved? ==>
              && r.before <= r.known
              && Pass(tools, r.pending, r.before, r.failed).processed == []
              && forall f :: f in r.failed <==> f in r.pending
    decreases |files|
  {
    if |files| > 0 {
      var out := Pass(tools, files, known, failed);
      PassOutcome(tools, files, known, failed);
      if |out.processed| > 0 {
        var compiled' := compiled + out.processed;
        assert Run(tools, files, known, failed, compiled) == Run(tools, out.pending, out.known, out.failed, compiled');
        RunStuck(tools, out.pending, out.known, out.failed, compiled');
      }
    }
  }

  /** A file is compiled only after the tools accepted it. */
  lemma {:induction false} RunCompilesAccepted(tools: Tools, files: seq<SchemaFile>, known: set<string>,
                                               failed: map<SchemaFile, string>, compiled: seq<SchemaFile>)
    requires Distinct(files) && forall f :: f in failed ==> f in files
    requires forall f :: f in compiled ==> CanCompile(tools, f)
    ensures forall f :: f in Run(tools, files, known, failed, compiled).compiled ==> CanCompile(tools, f)
    decreases |files|
  {
    if |files| > 0 {
      var out := Pass(tools, files, known, failed);
      PassOutcome(tools, files, known, failed);
      if |out.processed| > 0 {
        RunCompilesAccepted(tools, out.pending, out.known, out.failed, compiled + out.processed);
      }
    }
  }

  /** `validTypes` is kept from pass to pass: every compiled file was parsed from types still
      known at the end, or, on the exception, known when the last pass began, and the types its
      parse defined are known there too. */
  lemma {:induction false} RunKeepsTypes(tools: Tools, files: seq<SchemaFile>, known: set<string>,
                                         failed: map<SchemaFile, string>, compiled: seq<SchemaFile>)
    requires Distinct(files) && forall f :: f in failed ==> f in files
    requires forall f :: f in compiled ==> CompiledWithin(tools, f, known)
    ensures var r := Run(tools, files, known, failed, compiled);
            && (r.Generated? ==> forall f :: f in r.compiled ==> CompiledWithin(tools, f, r.known))
            && (r.Unresolved? ==> forall f :: f in r.compiled ==> CompiledWithin(tools, f, r.before))
    decreases |files|
  {
    if |files| > 0 {
      var out := Pass(tools, files, known, failed);
      PassOutcome(tools, files, known, failed);
      if |out.processed| > 0 {
        PassKeepsTypes(tools, files, known, failed);
        forall f | f in compiled + out.processed ensures CompiledWithin(tools, f, out.known) {
          if f in compiled {
            CompiledWithinGrows(tools, f, known, out.known);
          }
        }
        RunKeepsTypes(tools, out.pending, out.known, out.failed, compiled + out.processed);
      }
    }
  }

  /** Files that always compile are all compiled by the first pass, in listing order, and the
      loop then stops. */
  lemma RunAllCompile(tools: Tools, files: seq<SchemaFile>, known: set<string>, failed: map<SchemaFile, string>,
                      compiled: seq<SchemaFile>)
    requires Distinct(files) && forall f :: f in failed ==> f in files
    ensures AllAlwaysCompile(tools, files) ==>
              Run(tools, files, known, failed, compiled).Generated? &&
              Run(tools, files, known, failed, compiled).compiled == compiled + files
  {
    if |files| > 0 && AllAlwaysCompile(tools, files) {
      PassOutcome(tools, files, known, failed);
    }
  }

  /** The state of the outer loop at the top of an iteration: the files still pending, the
      valid types, the recorded failures, and the files compiled so far. */
  datatype LoopState = LoopState(files: seq<SchemaFile>, known: set<string>, failed: map<SchemaFile, string>,
                                 compiled: seq<SchemaFile>)

  /** The loop's own invariant: pending files are pairwise different and only they are recorded. */
  predicate Ready(s: LoopState) {
    Distinct(s.files) && forall f :: f in s.failed ==> f in s.files
  }

  function PassFrom(tools: Tools, s: LoopState): PassOut {
    Pass(tools, s.files, s.known, s.failed)
  }

  /** Files remain pending and a pass over them compiles none: the condition of the `throw`. */
  predicate Stalled(tools: Tools, s: LoopState) {
    |s.files| > 0 && PassFrom(tools, s).processed == []
  }

  /** The state after one pass, before the loop tests whether files remain. */
  function Next(tools: Tools, s: LoopState): LoopState {
    var out := PassFrom(tools, s);
    LoopState(out.pending, out.known, out.failed, s.compiled + out.processed)
  }

  /** `t` is reached from `s` after `n` passes, each of which compiled at least one file. */
  ghost predicate Reaches(tools: Tools, s: LoopState, t: LoopState, n: nat)
    decreases n
  {
    if n == 0 then t == s
    else |s.files| > 0 && |PassFrom(tools, s).processed| > 0 && Reaches(tools, Next(tools, s), t, n - 1)
  }

  function RunFrom(tools: Tools, s: LoopState): Outcome
    requires Ready(s)
  {
    Run(tools, s.files, s.known, s.failed, s.compiled)
  }

  /** A pass that compiled something leaves a state the loop can go on from, with fewer files. */
  lemma NextReady(tools: Tools, s: LoopState)
    requires Ready(s) && |s.files| > 0 && |PassFrom(tools, s).processed| > 0
    ensures Ready(Next(tools, s)) && |Next(tools, s).files| < |s.files|
    ensures RunFrom(tools, s) == RunFrom(tools, Next(tools, s))
  {
    PassOutcome(tools, s.files, s.known, s.failed);
  }

  /** A stall reached after any number of productive passes is where the task throws: the
      exception carries that state's pending files, its failures and its types. */
  lemma {:induction false} RunAtStall(tools: Tools, s: LoopState, t: LoopState, n: nat)
    requires Ready(s) && Reaches(tools, s, t, n) && Stalled(tools, t)
    ensures RunFrom(tools, s) ==
              Unresolved(t.files, PassFrom(tools, t).failed, t.compiled, t.known, PassFrom(tools, t).known)
    decreases n
  {
    if n > 0 {
      NextReady(tools, s);
      RunAtStall(tools, Next(tools, s), t, n - 1);
    }
  }

  /** Running out of pending files after productive passes ends the task normally. */
  lemma {:induction false} RunAtEnd(tools: Tools, s: LoopState, t: LoopState, n: nat)
    requires Ready(s) && Reaches(tools, s, t, n) && |t.files| == 0
    ensures RunFrom(tools, s) == Generated(t.compiled, t.known)
    decreases n
  {
    if n > 0 {
      NextReady(tools, s);
      RunAtEnd(tools, Next(tools, s), t, n - 1);
    }
  }

  /** Productive passes always lead to a stall or to no pending file. */
  lemma {:induction false} RunReachesEnd(tools: Tools, s: LoopState)
    requires Ready(s)
    ensures exists t, n: nat :: Reaches(tools, s, t, n) && (Stalled(tools, t) || |t.files| == 0)
    decreases |s.files|
  {
    if |s.files| > 0 && !Stalled(tools, s) {
      NextReady(tools, s);
      RunReachesEnd(tools, Next(tools, s));
      var t, n: nat :| Reaches(tools, Next(tools, s), t, n) && (Stalled(tools, t) || |t.files| == 0);
      assert Reaches(tools, s, t, n + 1);
    } else {
      assert Reaches(tools, s, s, 0);
    }
  }

  /** The loop throws exactly when some pass, first or later, compiles nothing while files remain
      pending, and ends normally exactly when the pending files run out. */
  lemma RunThrowsIff(tools: Tools, s: LoopState)
    requires Ready(s)
    ensures RunFrom(tools, s).Unresolved? <==> exists t, n: nat :: Reaches(tools, s, t, n) && Stalled(tools, t)
    ensures RunFrom(tools, s).Generated? <==> exists t, n: nat :: Reaches(tools, s, t, n) && |t.files| == 0
  {
    RunReachesEnd(tools, s);
    forall t, n: nat | Reaches(tools, s, t, n) && Stalled(tools, t) ensures RunFrom(tools, s).Unresolved? {
      RunAtStall(tools, s, t, n);
    }
    forall t, n: nat | Reaches(tools, s, t, n) && |t.files| == 0 ensures RunFrom(tools, s).Generated? {
      RunAtEnd(tools, s, t, n);
    }
  }

  /** The loop's state before the first pass over a directory. */
  function Start(dir: seq<SchemaFile>): LoopState {
    LoopState(AvroSources(dir), {}, map[], [])
  }

  /** The `doLast` action of `generateAvro`: the loop run over the directory's `.avsc` files with
      no type known and no failure recorded. On normal exit every source was compiled exactly
      once; on the exception the last pass, replayed from the types known when it began,
      compiles nothing, and `failedFiles` names exactly the pending files. Only files the tools
      accepted are ever compiled, and `validTypes` is never forgotten: the types each compiled
      file was parsed from and defined are known at the end, or when the last pass began; sources that always compile are compiled in one pass, in
      listing order; and a first pass that compiles nothing throws with every source pending. */
  function GenerateAvro(tools: Tools, dir: seq<SchemaFile>): (r: Outcome)
    requires Distinct(dir)
    ensures forall f :: f in r.compiled ==> CanCompile(tools, f)
    ensures r.Generated? ==> forall f :: f in r.compiled ==> CompiledWithin(tools, f, r.known)
    ensures r.Unresolved? ==> forall f :: f in r.compiled ==> CompiledWithin(tools, f, r.before)
    ensures r.Unresolved? <==> exists t, n: nat :: Reaches(tools, Start(dir), t, n) && Stalled(tools, t)
    ensures forall t, n: nat :: Reaches(tools, Start(dir), t, n) && Stalled(tools, t) ==>
              r == Unresolved(t.files, PassFrom(tools, t).failed, t.compiled, t.known, PassFrom(tools, t).known)
    ensures r.Generated? ==> multiset(r.compiled) == multiset(AvroSources(dir))
    ensures AllAlwaysCompile(tools, AvroSources(dir)) ==> r.Generated? && r.compiled == AvroSources(dir)
    ensures |AvroSources(dir)| > 0 && Pass(tools, AvroSources(dir), {}, map[]).processed == [] ==>
              r.Unresolved? && r.compiled == [] && r.pending == AvroSources(dir)
    ensures r.Unresolved? ==>
              && |r.pending| > 0
              && multiset(r.compiled) + multiset(r.pending) == multiset(AvroSources(dir))
              && r.before <= r.known
              && Pass(tools, r.pending, r.before, r.failed).processed == []
              && forall f :: f in r.failed <==> f in r.pending
  {
    var sources := AvroSources(dir);
    RunKeepsFiles(tools, sources, {}, map[], []);
    RunStuck(tools, sources, {}, map[], []);
    RunCompilesAccepted(tools, sources, {}, map[], []);
    RunAllCompile(tools, sources, {}, map[], []);
    RunKeepsTypes(tools, sources, {}, map[], []);
    RunThrowsIff(tools, Start(dir));
    forall t, n: nat | Reaches(tools, Start(dir), t, n) && Stalled(tools, t)
      ensures RunFrom(tools, Start(dir)) ==
                Unresolved(t.files, PassFrom(tools, t).failed, t.compiled, t.known, PassFrom(tools, t).known)
    {
      RunAtStall(tools, Start(dir), t, n);
    }
    assert [] + sources == sources;
    Run(tools, sources, {}, map[], [])
  }

  /** One iteration of the outer loop over distinct pending files whose recorded failures are
      all pending: a pass that compiles nothing leaves every file pending and recorded, and
      replays identically from an empty record; a pass that compiles something shrinks the
      pending files, which stay distinct and recorded; only accepted files are compiled, and
      files that always compile are all compiled at once. */
  lemma PassOutcome(tools: Tools, files: seq<SchemaFile>, known: set<string>, failed: map<SchemaFile, string>)
    requires Distinct(files) && forall f :: f in failed ==> f in files
    ensures var out := Pass(tools, files, known, failed);
            && multiset(out.pending) + multiset(out.processed) == multiset(files)
            && (forall f :: f in out.processed ==> CanCompile(tools, f))
            && (AllAlwaysCompile(tools, files) ==> out.processed == files && out.pending == [])
            && (|out.processed| == 0 ==>
                  && out.pending == files
                  && (forall f :: f in out.failed <==> f in files)
                  && Pass(tools, files, known, out.failed).processed == [])
            && (|out.processed| > 0 ==>
                  && |out.pending| < |files| && Distinct(out.pending)
                  && forall f :: f in out.failed ==> f in out.pending)
  {
    var out := Pass(tools, files, known, failed);
    PassSplits(tools, files, known, failed);
    PassRecordsFailures(tools, files, known, failed);
    if AllAlwaysCompile(tools, files) {
      PassAllCompile(tools, files, known, failed);
    }
    forall f | f in out.processed ensures CanCompile(tools, f) {
      var k :| known <= k && tools.parse(f, k).Parsed? && tools.compile(f).None?;
    }
    if |out.processed| == 0 {
      PassKeepsOrder(tools, files, known, failed);
      forall f ensures f in out.failed <==> f in files {
        if f in files {
          assert f in multiset(out.pending);
        }
      }
      PassIgnoresFailed(tools, files, known, failed, out.failed);
    } else {
      assert |multiset(out.pending)| + |multiset(out.processed)| == |multiset(files)|;
      forall f | f in out.failed ensures f in out.pending {
        assert f in files;
        assert f in multiset(out.pending) + multiset(out.processed);
      }
      DistinctPart(files, out.pending, out.processed);
    }
  }

  /** A pass keeps the order of the files: the pending ones are the files it did not compile, as
      listed. In particular a pass that compiles nothing leaves the list as it was. */
  lemma {:induction false} PassKeepsOrder(tools: Tools, files: seq<SchemaFile>, known: set<string>, failed: map<SchemaFile, string>)
    ensures Pass(tools, files, known, failed).processed == [] ==> Pass(tools, files, known, failed).pending == files
    decreases |files|
  {
    if |files| > 0 {
      var f := files[0];
      var a := TryFile(tools, f, known);
      var failed' := if a.error.None? then failed - {f} else failed[f := a.error.value];
      PassKeepsOrder(tools, files[1..], a.known, failed');
      assert files == [f] + files[1..];
    }
  }

  /** The `failedFiles` map never decides which files a pass compiles. */
  lemma {:induction false} PassIgnoresFailed(tools: Tools, files: seq<SchemaFile>, known: set<string>,
                                             a: map<SchemaFile, string>, b: map<SchemaFile, string>)
    ensures Pass(tools, files, known, a).processed == Pass(tools, files, known, b).processed
    ensures Pass(tools, files, known, a).pending == Pass(tools, files, known, b).pending
    ensures Pass(tools, files, known, a).known == Pass(tools, files, known, b).known
    decreases |files|
  {
    if |files| > 0 {
      var f := files[0];
      var t := TryFile(tools, f, known);
      PassIgnoresFailed(tools, files[1..], t.known,
                        if t.error.None? then a - {f} else a[f := t.error.value],
                        if t.error.None? then b - {f} else b[f := t.error.value]);
    }
  }

  lemma DistinctPart(files: seq<SchemaFile>, pending: seq<SchemaFile>, processed: seq<SchemaFile>)
    requires Distinct(files)
    requires multiset(pending) + multiset(processed) == multiset(files)
    ensures Distinct(pending)
  {
    forall i, j | 0 <= i < j < |pending| ensures pending[i] != pending[j] {
      if pending[i] == pending[j] {
        var x := pending[i];
        assert multiset(pending[..j])[x] >= 1 by { assert pending[..j][i] == x; }
        assert pending == pending[..j] + [x] + pending[j + 1..];
        assert multiset(pending)[x] >= 2;
        DistinctCount(files, x);
        assert false;
      }
    }
  }

  lemma {:induction false} DistinctCount(s: seq<SchemaFile>, x: SchemaFile)
    requires Distinct(s)
    ensures multiset(s)[x] <= 1
    decreases |s|
  {
    if |s| > 0 {
      assert s == [s[0]] + s[1..];
      assert Distinct(s[1..]);
      DistinctCount(s[1..], x);
      if s[0] == x {
        assert x !in s[1..];
      }
    }
  }

  /** An oracle where each listed file defines the type named after it and may need others:
      parsing fails while a needed type is unknown. It re-parses without error a file whose own
      name is already known, where Avro's `Schema.Parser` would refuse to redefine the type; that
      happens only after a compile failure, since `putAll` runs before the compile, and the
      examples below never fail to compile. */
  function DependencyTools(needs: map<SchemaFile, set<string>>): Tools {
    Tools((f: SchemaFile, known: set<string>) =>
            if f in needs && !(needs[f] <= known) then ParseError("Undefined name") else Parsed(known + {f.name}),
          (f: SchemaFile) => None)
  }

  /** A schema listed before the type it uses fails in the first pass and compiles in the second,
      after its failure was recorded and then cleared. */
  lemma ForwardReferenceResolvedOnRetry()
    ensures var order := SchemaFile("Order.avsc");
            var item := SchemaFile("Item.avsc");
            var tools := DependencyTools(map[order := {"Item.avsc"}]);
            var first := Pass(tools, [order, item], {}, map[]);
            var second := Pass(tools, first.pending, first.known, first.failed);
            && first.processed == [item] && first.pending == [order] && order in first.failed
            && second.processed == [order] && second.pending == [] && second.failed == map[]
  {
    var order := SchemaFile("Order.avsc");
    var item := SchemaFile("Item.avsc");
    assert order != item by { assert order.name[0] != item.name[0]; }
    var tools := DependencyTools(map[order := {"Item.avsc"}]);
    var failed1 := map[order := "Undefined name"];
    assert TryFile(tools, order, {}) == Attempt({}, Some("Undefined name"));
    assert TryFile(tools, item, {}) == Attempt({"Item.avsc"}, None);
    assert [order, item][1..] == [item];
    assert [item][1..] == [];
    assert Pass(tools, [], {"Item.avsc"}, failed1 - {item}) == PassOut([], [], {"Item.avsc"}, failed1 - {item});
    var tail := Pass(tools, [item], {}, failed1);
    assert tail == PassOut([], [item], {"Item.avsc"}, failed1 - {item});
    assert failed1 - {item} == failed1;
    var first := Pass(tools, [order, item], {}, map[]);
    assert first == PassOut([order], [item], {"Item.avsc"}, failed1);
    assert TryFile(tools, order, {"Item.avsc"}) == Attempt({"Item.avsc", "Order.avsc"}, None);
    assert failed1 - {order} == map[];
    assert Pass(tools, [order], {"Item.avsc"}, failed1) == PassOut([], [order], {"Item.avsc", "Order.avsc"}, map[]);
  }

  /** A loop that forgot `validTypes` between passes could throw on the forward reference above
      with `Item.avsc` compiled and no type known; `GenerateAvro` rules that outcome out, since
      the type `Item.avsc` defined is not within the empty set. */
  lemma ForgottenTypesExcluded()
    ensures var order := SchemaFile("Order.avsc");
            var item := SchemaFile("Item.avsc");
            var tools := DependencyTools(map[order := {"Item.avsc"}]);
            !CompiledWithin(tools, item, {})
  {
  }

  /** An oracle for three schemas: `C.avsc` needs nothing, `A.avsc` and `B.avsc` each other. */
  function CycleTools(): Tools {
    DependencyTools(map[SchemaFile("A.avsc") := {"B.avsc"}, SchemaFile("B.avsc") := {"A.avsc"}])
  }

  function CycleDir(): seq<SchemaFile> {
    [SchemaFile("A.avsc"), SchemaFile("B.avsc"), SchemaFile("C.avsc")]
  }

  function CycleFailures(): map<SchemaFile, string> {
    map[SchemaFile("A.avsc") := "Undefined name", SchemaFile("B.avsc") := "Undefined name"]
  }

  /** The three names are `.avsc` files and pairwise different, so all three are sources. */
  lemma CycleSources()
    ensures Distinct(CycleDir()) && AvroSources(CycleDir()) == CycleDir()
  {
    var a, b, c := SchemaFile("A.avsc"), SchemaFile("B.avsc"), SchemaFile("C.avsc");
    assert a.name[0] != b.name[0] && a.name[0] != c.name[0] && b.name[0] != c.name[0];
    CycleNames();
    CycleListing();
  }

  lemma CycleNames()
    ensures Extension("A.avsc") == "avsc" && Extension("B.avsc") == "avsc" && Extension("C.avsc") == "avsc"
  {
    AvscName("A.avsc");
    AvscName("B.avsc");
    AvscName("C.avsc");
  }

  lemma CycleListing()
    requires Extension("A.avsc") == "avsc" && Extension("B.avsc") == "avsc" && Extension("C.avsc") == "avsc"
    ensures AvroSources(CycleDir()) == CycleDir()
  {
  }

  /** A schema name of one letter followed by ".avsc" has extension `avsc`. */
  lemma AvscName(name: string)
    requires |name| == 6 && name[1..] == ".avsc"
    ensures Extension(name) == "avsc"
  {
    AvscIffSuffix(name);
    assert name[|name| - 5..] == ".avsc";
  }

  /** The first pass, from no known type: the cyclic files fail and `C.avsc` compiles. */
  lemma CycleFirstPass()
    ensures Pass(CycleTools(), CycleDir(), {}, map[]) ==
              PassOut([SchemaFile("A.avsc"), SchemaFile("B.avsc")], [SchemaFile("C.avsc")], {"C.avsc"}, CycleFailures())
  {
    var tools := CycleTools();
    var a, b, c := SchemaFile("A.avsc"), SchemaFile("B.avsc"), SchemaFile("C.avsc");
    assert a != c && b != c by { assert a.name[0] != c.name[0] && b.name[0] != c.name[0]; }
    var u := "Undefined name";
    assert TryFile(tools, a, {}) == Attempt({}, Some(u));
    assert TryFile(tools, b, {}) == Attempt({}, Some(u));
    assert TryFile(tools, c, {}) == Attempt({"C.avsc"}, None);
    assert [a, b, c][1..] == [b, c] && [b, c][1..] == [c] && [c][1..] == [];
    assert CycleFailures() - {c} == CycleFailures();
    assert Pass(tools, [c], {}, CycleFailures()) == PassOut([], [c], {"C.avsc"}, CycleFailures());
  }

  /** The second pass, knowing only `C.avsc`: both cyclic files fail again. */
  lemma CycleSecondPass()
    ensures Pass(CycleTools(), [SchemaFile("A.avsc"), SchemaFile("B.avsc")], {"C.avsc"}, CycleFailures()) ==
              PassOut([SchemaFile("A.avsc"), SchemaFile("B.avsc")], [], {"C.avsc"}, CycleFailures())
  {
    var tools := CycleTools();
    var a, b := SchemaFile("A.avsc"), SchemaFile("B.avsc");
    var u := "Undefined name";
    assert TryFile(tools, a, {"C.avsc"}) == Attempt({"C.avsc"}, Some(u));
    assert TryFile(tools, b, {"C.avsc"}) == Attempt({"C.avsc"}, Some(u));
    assert [a, b][1..] == [b] && [b][1..] == [];
    assert CycleFailures()[a := u] == CycleFailures() && CycleFailures()[b := u] == CycleFailures();
  }

  /** A cycle found after some progress still throws: the first pass compiles `C.avsc`, the
      second compiles nothing, so the task throws with both cyclic files pending and recorded.
      The outcome follows from the contract of `GenerateAvro` once the second state is shown
      to be reached and stalled. */
  lemma CycleAfterProgressThrows()
    ensures GenerateAvro(CycleTools(), CycleDir()) ==
              Unresolved([SchemaFile("A.avsc"), SchemaFile("B.avsc")], CycleFailures(), [SchemaFile("C.avsc")],
                         {"C.avsc"}, {"C.avsc"})
  {
    var tools, dir := CycleTools(), CycleDir();
    CycleSources();
    CycleFirstPass();
    CycleSecondPass();
    var s1 := LoopState([SchemaFile("A.avsc"), SchemaFile("B.avsc")], {"C.avsc"}, CycleFailures(), [SchemaFile("C.avsc")]);
    assert Next(tools, Start(dir)) == s1;
    assert Reaches(tools, Start(dir), s1, 1) by {
      assert Reaches(tools, s1, s1, 0);
    }
    assert Stalled(tools, s1);
  }

  /** Two schemas that need each other never parse: the first pass compiles nothing, so the
      task throws with both files recorded. */
  lemma MutualReferenceThrows()
    ensures var a := SchemaFile("A.avsc");
            var b := SchemaFile("B.avsc");
            var tools := DependencyTools(map[a := {"B.avsc"}, b := {"A.avsc"}]);
            var out := Pass(tools, [a, b], {}, map[]);
            out.processed == [] && out.pending == [a, b] && a in out.failed && b in out.failed
  {
    var a := SchemaFile("A.avsc");
    var b := SchemaFile("B.avsc");
    assert a != b by { assert a.name[0] != b.name[0]; }
    var tools := DependencyTools(map[a := {"B.avsc"}, b := {"A.avsc"}]);
    assert TryFile(tools, a, {}) == Attempt({}, Some("Undefined name"));
    assert TryFile(tools, b, {}) == Attempt({}, Some("Undefined name"));
    assert [a, b][1..] == [b];
    var failed1 := map[a := "Undefined name"];
    assert Pass(tools, [b], {}, failed1) == PassOut([b], [], {}, failed1[b := "Undefined name"]);
  }
}
