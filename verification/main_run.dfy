/** Main: the run as a sequence of steps inside one try block. Success commits both stores,
    prints the summary and closes the connections; any exception rolls back (when a connection
    object exists) and exits with status 1. */
module MainRun {
  import opened Common
  import opened Rows
  import opened GameGenerator
  import opened DlcGenerator
  import opened EditorLoader
  import opened PlatformSync

  /** The steps of the try block, in order. `Connect` stands for creating the connection object
      and connecting with it, so when it fails the object already exists. */
  datatype MainStep = ReadConfig | Connect | Clear | LoadEditor | SyncPlatform | Commit | Summary
  {
    function Index(): nat {
      match this
      case ReadConfig => 0
      case Connect => 1
      case Clear => 2
      case LoadEditor => 3
      case SyncPlatform => 4
      case Commit => 5
      case Summary => 6
    }
  }

  /** What the run does, in order: a completed step, a rollback, closing the connections, or the
      end of the process with its exit status. */
  datatype Event = Done(step: MainStep) | RolledBack | Closed | Exit(status: int)

  /** The steps of the try block in program order. */
  const Order: seq<MainStep> := [ReadConfig, Connect, Clear, LoadEditor, SyncPlatform, Commit, Summary]

  lemma OrderIndexed()
    ensures |Order| == 7
    ensures forall i :: 0 <= i < 7 ==> Order[i].Index() == i
  {
  }

  /** How many steps complete: all seven, or those before the failing one. */
  function Completed(failAt: Option<MainStep>): (n: nat)
    ensures n <= 7
  {
    if failAt.None? then 7 else failAt.value.Index()
  }

  /** The events of the steps that complete. */
  function Steps(failAt: Option<MainStep>): (r: seq<Event>)
    ensures |r| == Completed(failAt)
  {
    seq(Completed(failAt), i requires 0 <= i < Completed(failAt) => Done(Order[i]))
  }

  /** The connection object exists once the `Connect` step has started. */
  predicate HasConnection(failAt: Option<MainStep>) {
    failAt.None? || failAt.value.Index() >= Connect.Index()
  }

  /** `main` as written: on success the `finally` block closes the connections; on failure each
      `catch` block rolls back when there is a connection object and calls `System.exit(1)`,
      which ends the process before the `finally` block can run. */
  function Run(failAt: Option<MainStep>): (trace: seq<Event>)
    ensures |trace| > 0 && trace[|trace| - 1] == Exit(if failAt.None? then 0 else 1)
    ensures Closed in trace <==> failAt.None?
    ensures RolledBack in trace <==> failAt.Some? && HasConnection(failAt)
  {
    var steps := Steps(failAt);
    assert Closed !in steps && RolledBack !in steps;
    if failAt.None? then steps + [Closed, Exit(0)]
    else if HasConnection(failAt) then steps + [RolledBack, Exit(1)]
    else steps + [Exit(1)]
  }

  /** `main` with the connections closed on every path that has a connection object. */
  function RunClosing(failAt: Option<MainStep>): (trace: seq<Event>)
    ensures |trace| > 0 && trace[|trace| - 1] == Exit(if failAt.None? then 0 else 1)
    ensures Closed in trace <==> HasConnection(failAt)
    ensures RolledBack in trace <==> failAt.Some? && HasConnection(failAt)
    ensures failAt.None? ==> trace == Run(failAt)
  {
    var steps := Steps(failAt);
    assert Closed !in steps && RolledBack !in steps;
    if failAt.None? then steps + [Closed, Exit(0)]
    else if HasConnection(failAt) then steps + [RolledBack, Closed, Exit(1)]
    else steps + [Exit(1)]
  }

  /** A step completes exactly when it comes before the failing one. */
  lemma StepDoneIff(failAt: Option<MainStep>, step: MainStep)
    ensures Done(step) in Steps(failAt) <==> failAt.None? || step.Index() < failAt.value.Index()
  {
    OrderIndexed();
    var steps := Steps(failAt);
    if Done(step) in steps {
      var i :| 0 <= i < |steps| && steps[i] == Done(step);
      assert Order[i] == step;
    }
    if step.Index() < |steps| {
      assert steps[step.Index()] == Done(step);
    }
  }

  /** In both versions the commit happens exactly when the load, the sync and the commit itself
      do not throw, and it always comes after the editor load and the platform sync. */
  lemma CommitAfterLoadAndSync(failAt: Option<MainStep>)
    ensures Done(Commit) in Run(failAt) <==> failAt.None? || failAt.value == Summary
    ensures Done(Commit) in Run(failAt) ==>
              Run(failAt)[3] == Done(LoadEditor) && Run(failAt)[4] == Done(SyncPlatform) && Run(failAt)[5] == Done(Commit)
    ensures Done(Commit) in RunClosing(failAt) <==> Done(Commit) in Run(failAt)
  {
    StepDoneIff(failAt, Commit);
    var steps := Steps(failAt);
    var run, closing := Run(failAt), RunClosing(failAt);
    assert Done(Commit) in run <==> Done(Commit) in steps by {
      assert run == steps + run[|steps|..];
      assert Done(Commit) !in run[|steps|..];
    }
    assert Done(Commit) in closing <==> Done(Commit) in steps by {
      assert closing == steps + closing[|steps|..];
      assert Done(Commit) !in closing[|steps|..];
    }
  }

  /** The run with no failure: every step in order, then close, then status 0. */
  lemma SuccessTrace()
    ensures Run(None) == [Done(ReadConfig), Done(Connect), Done(Clear), Done(LoadEditor),
                          Done(SyncPlatform), Done(Commit), Done(Summary), Closed, Exit(0)]
  {
  }

  /** As written, a run that fails after the connection object exists never closes it. */
  lemma FailedRunLeavesConnectionOpen()
    ensures HasConnection(Some(LoadEditor)) && Closed !in Run(Some(LoadEditor))
    ensures Closed in RunClosing(Some(LoadEditor))
  {
  }

  /** Java's `/` on `int`: the quotient truncated toward zero. */
  function JavaDiv(a: int, b: int): (r: int)
    requires b > 0
    ensures a >= 0 ==> r == a / b
    ensures a < 0 ==> r == -((-a) / b)
  {
    if a >= 0 then a / b else -((-a) / b)
  }

  /** `(min + max) / 2` in `int` arithmetic. */
  function Average(min: int, max: int): int {
    JavaDiv(Wrap32(min + max), 2)
  }

  datatype Estimates = Estimates(editors: int, games: int, dlcs: int, patches: int, bugReports: int, evaluations: int)

  /** The figures `printSummary` prints: the editor count, then each per-parent average times
      the estimated game count, all in `int` arithmetic. Every figure is a Java `int`, and the
      per-game figures scale the game estimate, so no games means none of anything else. */
  function SummaryEstimates(cfg: Config): (r: Estimates)
    ensures r.editors == cfg.numEditors
    ensures Int32(r.games) && Int32(r.dlcs) && Int32(r.patches) && Int32(r.bugReports) && Int32(r.evaluations)
    ensures cfg.numEditors == 0 ==> r.games == 0
    ensures r.games == 0 ==> r.dlcs == 0 && r.patches == 0 && r.bugReports == 0 && r.evaluations == 0
  {
    var games := Wrap32(cfg.numEditors * Average(cfg.gamesMin, cfg.gamesMax));
    Estimates(
      cfg.numEditors,
      games,
      Wrap32(games * Average(cfg.dlcMin, cfg.dlcMax)),
      Wrap32(games * Average(cfg.patchesMin, cfg.patchesMax)),
      Wrap32(games * Average(cfg.bugMin, cfg.bugMax)),
      Wrap32(games * Average(cfg.evalMin, cfg.evalMax)))
  }

  /** For a range of modest non-negative bounds the average is the midpoint rounded down and
      lies within the range. */
  lemma AverageInRange(min: int, max: int)
    requires 0 <= min <= max < 0x4000_0000
    ensures Average(min, max) == (min + max) / 2
    ensures min <= Average(min, max) <= max
  {
  }

  /** With a negative odd sum Java rounds toward zero, not down. */
  lemma AverageRoundsTowardZero()
    ensures Average(-3, 0) == -1
  {
  }

  /** Bounds large enough overflow the sum, and the printed average turns negative. */
  lemma AverageOverflows()
    ensures Average(0x7FFF_FFFF, 0x7FFF_FFFF) == -1
  {
  }

  predicate Modest(cfg: Config) {
    && 0 <= cfg.numEditors < 0x400
    && 0 <= cfg.gamesMin <= cfg.gamesMax < 0x400
    && 0 <= cfg.dlcMin <= cfg.dlcMax < 0x400
    && 0 <= cfg.patchesMin <= cfg.patchesMax < 0x400
    && 0 <= cfg.bugMin <= cfg.bugMax < 0x400
    && 0 <= cfg.evalMin <= cfg.evalMax < 0x400
  }

  /** With modest configuration values nothing wraps: each estimate is the product of the
      rounded-down midpoints, and the game estimate lies between what the range bounds give. */
  lemma EstimatesExact(cfg: Config)
    requires Modest(cfg)
    ensures var e := SummaryEstimates(cfg);
            && e.games == cfg.numEditors * ((cfg.gamesMin + cfg.gamesMax) / 2)
            && e.dlcs == e.games * ((cfg.dlcMin + cfg.dlcMax) / 2)
            && e.patches == e.games * ((cfg.patchesMin + cfg.patchesMax) / 2)
            && e.bugReports == e.games * ((cfg.bugMin + cfg.bugMax) / 2)
            && e.evaluations == e.games * ((cfg.evalMin + cfg.evalMax) / 2)
            && cfg.numEditors * cfg.gamesMin <= e.games <= cfg.numEditors * cfg.gamesMax
  {
    GamesEstimate(cfg.numEditors, cfg.gamesMin, cfg.gamesMax);
    var games := cfg.numEditors * ((cfg.gamesMin + cfg.gamesMax) / 2);
    ScaledAverage(games, cfg.dlcMin, cfg.dlcMax);
    ScaledAverage(games, cfg.patchesMin, cfg.patchesMax);
    ScaledAverage(games, cfg.bugMin, cfg.bugMax);
    ScaledAverage(games, cfg.evalMin, cfg.evalMax);
  }

  lemma GamesEstimate(n: int, min: int, max: int)
    requires 0 <= n < 0x400 && 0 <= min <= max < 0x400
    ensures Wrap32(n * Average(min, max)) == n * ((min + max) / 2)
    ensures 0 <= n * ((min + max) / 2) < 0x10_0000
    ensures n * min <= n * ((min + max) / 2) <= n * max
  {
    AverageInRange(min, max);
    var mid := (min + max) / 2;
    ProductNoWrap(n, mid);
    MulMonotone(n, mid, 0x400);
    MulMonotone(n, min, mid);
    MulMonotone(n, mid, max);
  }

  lemma ScaledAverage(games: int, min: int, max: int)
    requires 0 <= games < 0x10_0000 && 0 <= min <= max < 0x400
    ensures Wrap32(games * Average(min, max)) == games * ((min + max) / 2)
  {
    AverageInRange(min, max);
    ProductNoWrap(games, Average(min, max));
  }

  lemma ProductNoWrap(a: int, b: int)
    requires 0 <= a < 0x10_0000 && 0 <= b < 0x400
    ensures 0 <= a * b < 0x10_0000 * 0x400
    ensures Wrap32(a * b) == a * b
  {
    MulMonotone(a, b, 0x400);
    MulMonotone(0x400, a, 0x10_0000);
  }

  lemma MulMonotone(a: int, b: int, c: int)
    requires 0 <= a && 0 <= b <= c
    ensures 0 <= a * b <= a * c
  {
    assert a * c - a * b == a * (c - b);
  }

  /** The generator objects `main` hands to the platform loader, which ignores them, agree with
      the editor store the loader reads: a stored game reaches the platform store exactly when
      the game generator records it as published, and likewise for a stored DLC, whose game
      must also be published. */
  lemma GeneratorsAgreeWithSync(out: LoadOutcome, g: Game, d: Dlc)
    requires out.Loaded? && Sound(out.store, out.src.nextId) && GensAgree(out.gens, out.store)
    requires g in out.store.games && d in out.store.dlcs
    ensures PlatformGameOf(g) in Sync(out.store).games <==> g.id in PublishedGameIds(out.gens.games)
    ensures PlatformDlcOf(d) in Sync(out.store).dlcs <==>
              d.id in PublishedDlcIds(out.gens.dlcs) && PublishedGame(out.store.games, d.gameId)
  {
    var st := out.store;
    if PlatformGameOf(g) in Sync(st).games {
      var h :| h in st.games && h.isPublish && PlatformGameOf(g) == PlatformGameOf(h);
      SameKeySameRow(st.games, g, h);
    }
    if PlatformDlcOf(d) in Sync(st).dlcs {
      var e :| e in st.dlcs && e.isPublish && PublishedGame(st.games, e.gameId) && PlatformDlcOf(d) == PlatformDlcOf(e);
      SameKeySameDlc(st.dlcs, d, e);
    }
  }

  lemma SameKeySameRow(games: seq<Game>, g: Game, h: Game)
    requires forall i, j :: 0 <= i < j < |games| ==> games[i].id != games[j].id
    requires g in games && h in games && g.id == h.id
    ensures g == h
  {
    var i :| 0 <= i < |games| && games[i] == g;
    var j :| 0 <= j < |games| && games[j] == h;
    assert i == j;
  }

  lemma SameKeySameDlc(dlcs: seq<Dlc>, d: Dlc, e: Dlc)
    requires forall i, j :: 0 <= i < j < |dlcs| ==> dlcs[i].id != dlcs[j].id
    requires d in dlcs && e in dlcs && d.id == e.id
    ensures d == e
  {
    var i :| 0 <= i < |dlcs| && dlcs[i] == d;
    var j :| 0 <= j < |dlcs| && dlcs[j] == e;
    assert i == j;
  }
}
