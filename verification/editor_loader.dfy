/** EditorDbLoader: the six generation stages run in order against one editor store, each stage
    fed the ids produced by the stages before it. A failing stage stops the run. */
module EditorLoader {
  import opened Common
  import opened Faker
  import opened Rows
  import opened EditorGenerator
  import opened GameGenerator
  import opened DlcGenerator
  import opened PatchGenerator
  import opened BugReportGenerator
  import opened EvaluationGenerator

  /** The six steps of `loadData`, in the order they run. */
  datatype Stage = EditorsStage | GamesStage | DlcsStage | PatchesStage | BugReportsStage | EvaluationsStage
  {
    function Index(): nat {
      match this
      case EditorsStage => 0
      case GamesStage => 1
      case DlcsStage => 2
      case PatchesStage => 3
      case BugReportsStage => 4
      case EvaluationsStage => 5
    }
  }

  /** The generator objects a loader owns; they are created fresh with the loader. */
  datatype Generators = Generators(editors: EditorGen, games: GameGen, dlcs: DlcGen, patches: PatchGen)

  /** The rows each generator call returned, one batch per call: games per editor, DLCs per
      (editor, game) pair, patches, bug reports and evaluations per game. */
  datatype Batches = Batches(
    games: seq<seq<GameRows>>,
    dlcs: seq<seq<Dlc>>,
    patches: seq<seq<Patch>>,
    bugReports: seq<seq<BugReport>>,
    evaluations: seq<seq<Evaluation>>)

  /** The end of `loadData`: every stage ran, or the stage whose insert raised the
      `SQLException` that `loadData` rethrows, with the rows the earlier stages inserted. */
  datatype LoadOutcome =
    | Loaded(store: EditorStore, gens: Generators, batches: Batches, src: Src)
    | Failed(stage: Stage, store: EditorStore)

  function GamesOf(xs: seq<GameRows>): (r: seq<Game>)
    ensures |r| == |xs| && forall i :: 0 <= i < |xs| ==> r[i] == xs[i].game
  {
    seq(|xs|, i requires 0 <= i < |xs| => xs[i].game)
  }

  /** The `game_platform` rows, game after game. */
  function PlatformRowsOf(xs: seq<GameRows>): seq<GamePlatform> {
    Flatten(seq(|xs|, i requires 0 <= i < |xs| => xs[i].platforms))
  }

  /** The `game_genre` rows, game after game. */
  function GenreRowsOf(xs: seq<GameRows>): seq<GameGenre> {
    Flatten(seq(|xs|, i requires 0 <= i < |xs| => xs[i].genres))
  }

  /** The tables of `stage` and of every later stage are still empty. */
  predicate EmptyFrom(st: EditorStore, stage: Stage) {
    var tail := st.bugReports == [] && st.evaluations == [];
    match stage
    case EditorsStage => st == EmptyEditorStore
    case GamesStage => st == EmptyEditorStore.(editors := st.editors)
    case DlcsStage => st.dlcs == [] && st.patches == [] && tail
    case PatchesStage => st.patches == [] && tail
    case BugReportsStage => tail
    case EvaluationsStage => st.evaluations == []
  }

  /** What holds of a store after every completed stage: foreign keys resolve, keys are unique,
      and every key lies below the next id to be handed out. */
  predicate Sound(st: EditorStore, bound: Id) {
    Intact(st) && UniqueKeys(st) && KeysBelow(st, bound)
  }

  /** The generators' side tables agree with the rows in the store. */
  predicate GensAgree(gens: Generators, st: EditorStore) {
    && gens.editors.editorIds == EditorIds(st.editors)
    && GamesAgree(gens.games, st)
    && DlcsAgree(gens.dlcs, st)
    && PatchesAgree(gens.patches, st)
  }

  /** `getAllGameIds` lists the stored games in order, and `isGamePublished` is each one's flag. */
  predicate GamesAgree(gen: GameGen, st: EditorStore) {
    && AllGameIds(gen) == seq(|st.games|, i requires 0 <= i < |st.games| => st.games[i].id)
    && (forall g :: g in st.games ==> IsGamePublished(gen, g.id) == g.isPublish)
  }

  predicate DlcsAgree(gen: DlcGen, st: EditorStore) {
    && AllDlcIds(gen) == DlcIds(st.dlcs)
    && (forall d :: d in st.dlcs ==> IsDlcPublished(gen, d.id) == d.isPublish)
  }

  predicate PatchesAgree(gen: PatchGen, st: EditorStore) {
    && AllPatchIds(gen) == PatchIds(st.patches)
    && (forall p :: p in st.patches ==> IsPatchPublished(gen, p.id) == p.isPublish)
  }

  /** The `game` table is the games of one batch per editor of `editorIds`, in order, each batch
      holding that editor's games and sized within `[gamesMin, gamesMax]`. */
  predicate GamesShaped(cfg: Config, games: seq<Game>, batches: seq<seq<GameRows>>, editorIds: seq<Id>) {
    && games == GamesOf(Flatten(batches))
    && |batches| == |editorIds| && SizesIn(batches, cfg.gamesMin, cfg.gamesMax)
    && forall i, k :: 0 <= i < |batches| && 0 <= k < |batches[i]| ==> batches[i][k].game.editorId == editorIds[i]
  }

  /** The `dlc` table is one batch per visited (editor, game) pair, each sized within
      `[dlcMin, dlcMax]` and naming that pair. */
  predicate DlcsShaped(cfg: Config, dlcs: seq<Dlc>, batches: seq<seq<Dlc>>, owned: seq<(Id, Id)>) {
    && dlcs == Flatten(batches)
    && |batches| == |owned| && SizesIn(batches, cfg.dlcMin, cfg.dlcMax)
    && forall i, k :: 0 <= i < |batches| && 0 <= k < |batches[i]| ==>
         batches[i][k].editorId == owned[i].0 && batches[i][k].gameId == owned[i].1
  }

  /** The `patch` table is one version chain per id of `gameIds`, each sized within
      `[patchesMin, patchesMax]` and patching that game. */
  predicate PatchesShaped(cfg: Config, patches: seq<Patch>, batches: seq<seq<Patch>>, gameIds: seq<Id>) {
    && patches == Flatten(batches)
    && |batches| == |gameIds| && SizesIn(batches, cfg.patchesMin, cfg.patchesMax)
    && (forall i :: 0 <= i < |batches| ==> VersionChain(batches[i]))
    && forall i, k :: 0 <= i < |batches| && 0 <= k < |batches[i]| ==> batches[i][k].gameId == gameIds[i]
  }

  /** The `bug_report` table is one batch per id of `gameIds`, each sized within
      `[bugMin, bugMax]` and reporting on that game. */
  predicate BugReportsShaped(cfg: Config, reports: seq<BugReport>, batches: seq<seq<BugReport>>, gameIds: seq<Id>) {
    && reports == Flatten(batches)
    && |batches| == |gameIds| && SizesIn(batches, cfg.bugMin, cfg.bugMax)
    && forall i, k :: 0 <= i < |batches| && 0 <= k < |batches[i]| ==> batches[i][k].gameId == gameIds[i]
  }

  /** The `evaluation` table is one batch per id of `gameIds`, each sized within
      `[evalMin, evalMax]` and rating that game. */
  predicate EvaluationsShaped(cfg: Config, evaluations: seq<Evaluation>, batches: seq<seq<Evaluation>>, gameIds: seq<Id>) {
    && evaluations == Flatten(batches)
    && |batches| == |gameIds| && SizesIn(batches, cfg.evalMin, cfg.evalMax)
    && forall i, k :: 0 <= i < |batches| && 0 <= k < |batches[i]| ==> batches[i][k].gameId == gameIds[i]
  }

  /** `loadData`. `failAt` names the stage whose insert throws, if any. On success the store is
      sound, the generators' side tables describe exactly the rows inserted, and every table is
      made of one batch per editor, per (editor, game) pair or per id of `getAllGameIds`, each
      of a size its configured range allows; on failure the stages after the failing one have
      not run, and the rows of the earlier ones are sound. */
  method LoadData(cfg: Config, failAt: Option<Stage>, s: Src) returns (out: LoadOutcome)
    requires cfg.Valid()
    ensures out.Loaded? <==> failAt == None
    ensures out.Failed? ==> failAt == Some(out.stage) && EmptyFrom(out.store, out.stage)
    ensures out.Failed? && out.stage.Index() > 0 ==> |out.store.editors| == Clamp0(cfg.numEditors)
    ensures out.Failed? ==> Intact(out.store) && UniqueKeys(out.store)
    ensures out.Loaded? ==> Sound(out.store, out.src.nextId) && s.nextId <= out.src.nextId
    ensures out.Loaded? ==> |out.store.editors| == Clamp0(cfg.numEditors)
    ensures out.Loaded? ==> GensAgree(out.gens, out.store)
    ensures out.Loaded? ==> GamesShaped(cfg, out.store.games, out.batches.games, out.gens.editors.editorIds)
    ensures out.Loaded? ==> DlcsShaped(cfg, out.store.dlcs, out.batches.dlcs, Owned(out.gens.games.editorGames))
    ensures out.Loaded? ==> PatchesShaped(cfg, out.store.patches, out.batches.patches, AllGameIds(out.gens.games))
    ensures out.Loaded? ==> BugReportsShaped(cfg, out.store.bugReports, out.batches.bugReports, AllGameIds(out.gens.games))
    ensures out.Loaded? ==> EvaluationsShaped(cfg, out.store.evaluations, out.batches.evaluations, AllGameIds(out.gens.games))
  {
    if failAt == Some(EditorsStage) {
      return Failed(EditorsStage, EmptyEditorStore);
    }
    var st1, editorGen, s1 := EditorsStep(cfg, s);
    if failAt == Some(GamesStage) {
      return Failed(GamesStage, st1);
    }
    var st2, gameGen, gameBatches, s2 := GamesStep(cfg, st1, editorGen.editorIds, s1);
    if failAt == Some(DlcsStage) {
      return Failed(DlcsStage, st2);
    }
    var st3, dlcGen, dlcBatches, s3 := DlcsStep(cfg, st2, editorGen.editorIds, gameGen, gameBatches, s2);
    if failAt == Some(PatchesStage) {
      return Failed(PatchesStage, st3);
    }
    var st4, patchGen, patchBatches, s4 := PatchesStep(cfg, st3, gameGen, gameBatches, s3);
    if failAt == Some(BugReportsStage) {
      return Failed(BugReportsStage, st4);
    }
    var st5, bugBatches, s5 := BugReportsStep(cfg, st4, gameGen, patchGen, gameBatches, s4);
    if failAt == Some(EvaluationsStage) {
      return Failed(EvaluationsStage, st5);
    }
    var st6, evaluationBatches, s6 := EvaluationsStep(cfg, st5, gameGen, gameBatches, s5);
    assert failAt == None by {
      if failAt.Some? {
        match failAt.value
        case EditorsStage =>
        case GamesStage =>
        case DlcsStage =>
        case PatchesStage =>
        case BugReportsStage =>
        case EvaluationsStage =>
      }
    }
    out := Loaded(st6, Generators(editorGen, gameGen, dlcGen, patchGen),
                  Batches(gameBatches, dlcBatches, patchBatches, bugBatches, evaluationBatches), s6);
  }

  /** Step 1: `generateEditors` on a fresh generator. */
  method EditorsStep(cfg: Config, s: Src) returns (st: EditorStore, gen: EditorGen, s': Src)
    ensures EmptyFrom(st, GamesStage) && Sound(st, s'.nextId)
    ensures |st.editors| == Clamp0(cfg.numEditors) && s.nextId <= s'.nextId
    ensures gen.editorIds == EditorIds(st.editors) && Distinct(gen.editorIds)
  {
    var eo := GenerateEditors(NewEditorGen, cfg, s);
    EditorsStageSound(eo.rows, s.nextId);
    st, gen, s' := EmptyEditorStore.(editors := eo.rows), eo.gen, eo.src;
  }

  /** Step 2: `generateGames` for exactly the editor ids step 1 returned. */
  method GamesStep(cfg: Config, st: EditorStore, editorIds: seq<Id>, s: Src)
    returns (st': EditorStore, gen: GameGen, batches: seq<seq<GameRows>>, s': Src)
    requires cfg.Valid() && Sound(st, s.nextId) && EmptyFrom(st, GamesStage)
    requires editorIds == EditorIds(st.editors) && Distinct(editorIds)
    ensures Sound(st', s'.nextId) && EmptyFrom(st', DlcsStage) && s.nextId <= s'.nextId
    ensures st'.editors == st.editors && st'.games == GamesOf(Flatten(batches))
    ensures |batches| == |editorIds| && GamesShaped(cfg, st'.games, batches, editorIds)
    ensures forall i, k :: 0 <= i < |batches| && 0 <= k < |batches[i]| ==> GameRowsOk(batches[i][k], editorIds[i], cfg.publishPct)
    ensures gen.editorGames == Entries(editorIds, batches)
    ensures AllGameIds(gen) == GameIds(Flatten(batches))
    ensures GamesAgree(gen, st')
  {
    var b;
    gen, b, s' := GenerateGames(NewGameGen, cfg, editorIds, s);
    batches := b;
    var xs := Flatten(batches);
    GamesStageSound(st, editorIds, batches, cfg.publishPct, s.nextId);
    st' := st.(games := GamesOf(xs), gamePlatforms := PlatformRowsOf(xs), gameGenres := GenreRowsOf(xs));
    GamesAgreeWithRows(gen, xs, st');
  }

  /** The game generator agrees with a store whose games are the generated ones. */
  lemma GamesAgreeWithRows(gen: GameGen, xs: seq<GameRows>, st: EditorStore)
    requires st.games == GamesOf(xs) && AllGameIds(gen) == GameIds(xs)
    requires forall x :: x in xs ==> IsGamePublished(gen, x.game.id) == x.game.isPublish
    ensures GamesAgree(gen, st)
  {
    forall g | g in st.games
      ensures IsGamePublished(gen, g.id) == g.isPublish
    {
      var j :| 0 <= j < |xs| && st.games[j] == g;
      assert xs[j] in xs;
    }
  }

  /** Step 3: `generateDLCs` over the game generator's `editorGamesMap`. */
  method DlcsStep(cfg: Config, st: EditorStore, editorIds: seq<Id>, gameGen: GameGen, gameBatches: seq<seq<GameRows>>, s: Src)
    returns (st': EditorStore, gen: DlcGen, batches: seq<seq<Dlc>>, s': Src)
    requires cfg.Valid() && Sound(st, s.nextId) && EmptyFrom(st, DlcsStage)
    requires |gameBatches| == |editorIds| && st.games == GamesOf(Flatten(gameBatches))
    requires forall i, k :: 0 <= i < |gameBatches| && 0 <= k < |gameBatches[i]| ==> GameRowsOk(gameBatches[i][k], editorIds[i], cfg.publishPct)
    requires gameGen.editorGames == Entries(editorIds, gameBatches)
    ensures Sound(st', s'.nextId) && EmptyFrom(st', PatchesStage) && s.nextId <= s'.nextId
    ensures st' == st.(dlcs := Flatten(batches))
    ensures DlcsShaped(cfg, st'.dlcs, batches, Owned(gameGen.editorGames))
    ensures DlcsAgree(gen, st')
  {
    gen, batches, s' := GenerateDlcs(NewDlcGen, cfg, gameGen.editorGames, s);
    DlcsStageSound(st, editorIds, gameBatches, batches, cfg.publishPct, s.nextId);
    st' := st.(dlcs := Flatten(batches));
  }

  /** Step 4: `generatePatches` for `allGameIds`. */
  method PatchesStep(cfg: Config, st: EditorStore, gameGen: GameGen, gameBatches: seq<seq<GameRows>>, s: Src)
    returns (st': EditorStore, gen: PatchGen, batches: seq<seq<Patch>>, s': Src)
    requires cfg.Valid() && Sound(st, s.nextId) && EmptyFrom(st, PatchesStage)
    requires st.games == GamesOf(Flatten(gameBatches)) && AllGameIds(gameGen) == GameIds(Flatten(gameBatches))
    ensures Sound(st', s'.nextId) && EmptyFrom(st', BugReportsStage) && s.nextId <= s'.nextId
    ensures st' == st.(patches := Flatten(batches))
    ensures PatchesShaped(cfg, st'.patches, batches, AllGameIds(gameGen))
    ensures PatchesAgree(gen, st')
  {
    gen, batches, s' := GeneratePatches(NewPatchGen, cfg, AllGameIds(gameGen), s);
    PatchesStageSound(st, gameBatches, batches, cfg.publishPct, s.nextId);
    st' := st.(patches := Flatten(batches));
  }

  /** Step 5: `generateBugReports` for `allGameIds` and the patch generator's `getAllPatchIds`. */
  method BugReportsStep(cfg: Config, st: EditorStore, gameGen: GameGen, patchGen: PatchGen, gameBatches: seq<seq<GameRows>>, s: Src)
    returns (st': EditorStore, batches: seq<seq<BugReport>>, s': Src)
    requires cfg.Valid() && Sound(st, s.nextId) && EmptyFrom(st, BugReportsStage)
    requires st.games == GamesOf(Flatten(gameBatches)) && AllGameIds(gameGen) == GameIds(Flatten(gameBatches))
    requires PatchesAgree(patchGen, st)
    ensures Sound(st', s'.nextId) && EmptyFrom(st', EvaluationsStage) && s.nextId <= s'.nextId
    ensures st' == st.(bugReports := Flatten(batches))
    ensures BugReportsShaped(cfg, st'.bugReports, batches, AllGameIds(gameGen))
    ensures forall i, k :: 0 <= i < |batches| && 0 <= k < |batches[i]| ==>
              batches[i][k].patchId.Some? ==> batches[i][k].patchId.value in AllPatchIds(patchGen)
  {
    batches, s' := GenerateBugReports(cfg, AllGameIds(gameGen), AllPatchIds(patchGen), s);
    BugReportsStageSound(st, gameBatches, batches, s.nextId);
    st' := st.(bugReports := Flatten(batches));
  }

  /** Step 6: `generateEvaluations` for `allGameIds`. */
  method EvaluationsStep(cfg: Config, st: EditorStore, gameGen: GameGen, gameBatches: seq<seq<GameRows>>, s: Src)
    returns (st': EditorStore, batches: seq<seq<Evaluation>>, s': Src)
    requires cfg.Valid() && Sound(st, s.nextId) && EmptyFrom(st, EvaluationsStage)
    requires st.games == GamesOf(Flatten(gameBatches)) && AllGameIds(gameGen) == GameIds(Flatten(gameBatches))
    ensures Sound(st', s'.nextId) && s.nextId <= s'.nextId
    ensures st' == st.(evaluations := Flatten(batches))
    ensures EvaluationsShaped(cfg, st'.evaluations, batches, AllGameIds(gameGen))
  {
    batches, s' := GenerateEvaluations(cfg, AllGameIds(gameGen), s);
    EvaluationsStageSound(st, gameBatches, batches, s.nextId);
    st' := st.(evaluations := Flatten(batches));
  }

  /** Stage 1: editors with consecutive fresh ids make a sound store, and their id list has no
      repetition. */
  lemma EditorsStageSound(editors: seq<Editor>, base: nat)
    requires forall i :: 0 <= i < |editors| ==> editors[i].id == base + i
    ensures Sound(EmptyEditorStore.(editors := editors), base + |editors|)
    ensures Distinct(EditorIds(editors))
  {
  }

  /** Ids handed out in a row from `base` are pairwise different and all below `base + n`. */
  predicate Consecutive(ids: seq<Id>, base: nat) {
    forall k :: 0 <= k < |ids| ==> ids[k] == base + k
  }

  /** Inserting the games with their platform and genre rows into a store holding only editors
      keeps it sound when each game's editor is stored, each association names one of the new
      games, and the game ids are fresh. */
  lemma AddGames(st: EditorStore, games: seq<Game>, platforms: seq<GamePlatform>, genres: seq<GameGenre>, base: nat)
    requires Sound(st, base) && EmptyFrom(st, GamesStage)
    requires forall g :: g in games ==> HasEditor(st, g.editorId)
    requires forall r :: r in platforms ==> exists g :: g in games && g.id == r.gameId
    requires forall r :: r in genres ==> exists g :: g in games && g.id == r.gameId
    requires Consecutive(seq(|games|, i requires 0 <= i < |games| => games[i].id), base)
    ensures Sound(st.(games := games, gamePlatforms := platforms, gameGenres := genres), base + |games|)
  {
    var ids := seq(|games|, i requires 0 <= i < |games| => games[i].id);
    assert forall i :: 0 <= i < |games| ==> games[i].id == ids[i];
  }

  /** Inserting DLC rows keeps a sound store sound when each names a stored game of its editor
      and the ids are fresh. */
  lemma AddDlcs(st: EditorStore, dlcs: seq<Dlc>, base: nat)
    requires Sound(st, base) && EmptyFrom(st, DlcsStage)
    requires forall d :: d in dlcs ==> exists g :: g in st.games && g.id == d.gameId && g.editorId == d.editorId
    requires Consecutive(DlcIds(dlcs), base)
    ensures Sound(st.(dlcs := dlcs), base + |dlcs|)
  {
  }

  /** Inserting patch rows keeps a sound store sound when each names a stored game and the ids
      are fresh. */
  lemma AddPatches(st: EditorStore, patches: seq<Patch>, base: nat)
    requires Sound(st, base) && EmptyFrom(st, PatchesStage)
    requires forall p :: p in patches ==> HasGame(st, p.gameId)
    requires Consecutive(PatchIds(patches), base)
    ensures Sound(st.(patches := patches), base + |patches|)
  {
  }

  /** Inserting bug reports keeps a sound store sound when each names a stored game and, if it
      has one, a stored patch. */
  lemma AddBugReports(st: EditorStore, reports: seq<BugReport>, bound: nat)
    requires Sound(st, bound) && EmptyFrom(st, BugReportsStage)
    requires forall b :: b in reports ==> HasGame(st, b.gameId) && (b.patchId.Some? ==> HasPatch(st, b.patchId.value))
    ensures Sound(st.(bugReports := reports), bound)
  {
  }

  /** Inserting evaluations keeps a sound store sound when each names a stored game. */
  lemma AddEvaluations(st: EditorStore, evaluations: seq<Evaluation>, bound: nat)
    requires Sound(st, bound) && EmptyFrom(st, EvaluationsStage)
    requires forall v :: v in evaluations ==> HasGame(st, v.gameId)
    ensures Sound(st.(evaluations := evaluations), bound)
  {
  }

  /** Stage 2: the games of each editor's batch, with their platform and genre rows. */
  lemma GamesStageSound(st: EditorStore, editorIds: seq<Id>, batches: seq<seq<GameRows>>, pct: int, base: nat)
    requires Sound(st, base) && EmptyFrom(st, GamesStage)
    requires |st.editors| == |editorIds| && forall i :: 0 <= i < |editorIds| ==> st.editors[i].id == editorIds[i]
    requires |batches| == |editorIds|
    requires forall i, k :: 0 <= i < |batches| && 0 <= k < |batches[i]| ==> GameRowsOk(batches[i][k], editorIds[i], pct)
    requires forall k :: 0 <= k < |Flatten(batches)| ==> Flatten(batches)[k].game.id == base + k
    ensures var xs := Flatten(batches);
            Sound(st.(games := GamesOf(xs), gamePlatforms := PlatformRowsOf(xs), gameGenres := GenreRowsOf(xs)), base + |xs|)
  {
    var xs := Flatten(batches);
    var games := GamesOf(xs);
    forall g | g in games
      ensures HasEditor(st, g.editorId)
    {
      var j :| 0 <= j < |xs| && games[j] == g;
      FlattenIndex(batches, xs[j]);
      var i, k :| 0 <= i < |batches| && 0 <= k < |batches[i]| && batches[i][k] == xs[j];
      assert st.editors[i] in st.editors;
    }
    GameAssociationsListed(batches, editorIds, pct);
    AddGames(st, games, PlatformRowsOf(xs), GenreRowsOf(xs), base);
  }

  /** Every platform and genre row of the generated games names one of those games. */
  lemma GameAssociationsListed(batches: seq<seq<GameRows>>, editorIds: seq<Id>, pct: int)
    requires |batches| == |editorIds|
    requires forall i, k :: 0 <= i < |batches| && 0 <= k < |batches[i]| ==> GameRowsOk(batches[i][k], editorIds[i], pct)
    ensures var xs := Flatten(batches);
            && (forall r :: r in PlatformRowsOf(xs) ==> exists g :: g in GamesOf(xs) && g.id == r.gameId)
            && (forall r :: r in GenreRowsOf(xs) ==> exists g :: g in GamesOf(xs) && g.id == r.gameId)
  {
    var xs := Flatten(batches);
    var games := GamesOf(xs);
    var platformLists := seq(|xs|, i requires 0 <= i < |xs| => xs[i].platforms);
    forall r | r in PlatformRowsOf(xs)
      ensures exists g :: g in games && g.id == r.gameId
    {
      FlattenIndex(platformLists, r);
      var j, k :| 0 <= j < |xs| && 0 <= k < |xs[j].platforms| && xs[j].platforms[k] == r;
      FlattenIndex(batches, xs[j]);
      assert games[j] in games;
    }
    var genreLists := seq(|xs|, i requires 0 <= i < |xs| => xs[i].genres);
    forall r | r in GenreRowsOf(xs)
      ensures exists g :: g in games && g.id == r.gameId
    {
      FlattenIndex(genreLists, r);
      var j, k :| 0 <= j < |xs| && 0 <= k < |xs[j].genres| && xs[j].genres[k] == r;
      FlattenIndex(batches, xs[j]);
      assert games[j] in games;
    }
  }

  /** Stage 3: each DLC names a game listed under its editor in `editorGamesMap`, so a game
      with that id and that editor exists. */
  lemma DlcsStageSound(st: EditorStore, editorIds: seq<Id>, gameBatches: seq<seq<GameRows>>,
                       dlcBatches: seq<seq<Dlc>>, pct: int, base: nat)
    requires Sound(st, base) && EmptyFrom(st, DlcsStage)
    requires |gameBatches| == |editorIds|
    requires st.games == GamesOf(Flatten(gameBatches))
    requires forall i, k :: 0 <= i < |gameBatches| && 0 <= k < |gameBatches[i]| ==> GameRowsOk(gameBatches[i][k], editorIds[i], pct)
    requires |dlcBatches| == |Owned(Entries(editorIds, gameBatches))|
    requires forall i, k :: 0 <= i < |dlcBatches| && 0 <= k < |dlcBatches[i]| ==>
               && dlcBatches[i][k].editorId == Owned(Entries(editorIds, gameBatches))[i].0
               && dlcBatches[i][k].gameId == Owned(Entries(editorIds, gameBatches))[i].1
    requires forall k :: 0 <= k < |Flatten(dlcBatches)| ==> Flatten(dlcBatches)[k].id == base + k
    ensures Sound(st.(dlcs := Flatten(dlcBatches)), base + |Flatten(dlcBatches)|)
  {
    var dlcs := Flatten(dlcBatches);
    forall d | d in dlcs
      ensures exists g :: g in st.games && g.id == d.gameId && g.editorId == d.editorId
    {
      FlattenIndex(dlcBatches, d);
      var i, k :| 0 <= i < |dlcBatches| && 0 <= k < |dlcBatches[i]| && dlcBatches[i][k] == d;
      DlcParentListed(editorIds, gameBatches, pct, i);
      var n :| 0 <= n < |st.games| && st.games[n].id == d.gameId && st.games[n].editorId == d.editorId;
      assert st.games[n] in st.games;
    }
    AddDlcs(st, dlcs, base);
  }

  /** The game of the i-th visited (editor, game) pair is a generated game of that editor. */
  lemma DlcParentListed(editorIds: seq<Id>, gameBatches: seq<seq<GameRows>>, pct: int, i: int)
    requires |gameBatches| == |editorIds|
    requires forall j, k :: 0 <= j < |gameBatches| && 0 <= k < |gameBatches[j]| ==> GameRowsOk(gameBatches[j][k], editorIds[j], pct)
    requires 0 <= i < |Owned(Entries(editorIds, gameBatches))|
    ensures var pair := Owned(Entries(editorIds, gameBatches))[i];
            exists n :: 0 <= n < |GamesOf(Flatten(gameBatches))| &&
              GamesOf(Flatten(gameBatches))[n].id == pair.1 && GamesOf(Flatten(gameBatches))[n].editorId == pair.0
  {
    var entries := Entries(editorIds, gameBatches);
    var p := Owned(entries)[i];
    OwnedMember(entries, p.0, p.1);
    var j :| 0 <= j < |entries| && entries[j].editorId == p.0 && p.1 in entries[j].gameIds;
    var m :| 0 <= m < |gameBatches[j]| && gameBatches[j][m].game.id == p.1;
    var x := gameBatches[j][m];
    FlattenMember(gameBatches, x);
    var n :| 0 <= n < |Flatten(gameBatches)| && Flatten(gameBatches)[n] == x;
    assert GamesOf(Flatten(gameBatches))[n] == x.game;
  }

  /** Stage 4: each patch belongs to one of the listed games. */
  lemma PatchesStageSound(st: EditorStore, gameBatches: seq<seq<GameRows>>, patchBatches: seq<seq<Patch>>, pct: int, base: nat)
    requires Sound(st, base) && EmptyFrom(st, PatchesStage)
    requires st.games == GamesOf(Flatten(gameBatches))
    requires |patchBatches| == |Flatten(gameBatches)|
    requires forall i, k :: 0 <= i < |patchBatches| && 0 <= k < |patchBatches[i]| ==>
               PatchOk(patchBatches[i][k], GameIds(Flatten(gameBatches))[i], pct)
    requires forall k :: 0 <= k < |Flatten(patchBatches)| ==> Flatten(patchBatches)[k].id == base + k
    ensures Sound(st.(patches := Flatten(patchBatches)), base + |Flatten(patchBatches)|)
  {
    var patches := Flatten(patchBatches);
    forall p | p in patches
      ensures HasGame(st, p.gameId)
    {
      FlattenIndex(patchBatches, p);
      var i, k :| 0 <= i < |patchBatches| && 0 <= k < |patchBatches[i]| && patchBatches[i][k] == p;
      assert st.games[i] in st.games;
    }
    AddPatches(st, patches, base);
  }

  /** Stage 5: each report belongs to a listed game, and its patch, when it has one, to the
      patches inserted by stage 4, of whatever game. */
  lemma BugReportsStageSound(st: EditorStore, gameBatches: seq<seq<GameRows>>, bugBatches: seq<seq<BugReport>>, bound: nat)
    requires Sound(st, bound) && EmptyFrom(st, BugReportsStage)
    requires st.games == GamesOf(Flatten(gameBatches))
    requires |bugBatches| == |Flatten(gameBatches)|
    requires forall i, k :: 0 <= i < |bugBatches| && 0 <= k < |bugBatches[i]| ==>
               && bugBatches[i][k].gameId == GameIds(Flatten(gameBatches))[i]
               && (bugBatches[i][k].patchId.Some? ==> bugBatches[i][k].patchId.value in PatchIds(st.patches))
    ensures Sound(st.(bugReports := Flatten(bugBatches)), bound)
  {
    var reports := Flatten(bugBatches);
    forall b | b in reports
      ensures HasGame(st, b.gameId) && (b.patchId.Some? ==> HasPatch(st, b.patchId.value))
    {
      FlattenIndex(bugBatches, b);
      var i, k :| 0 <= i < |bugBatches| && 0 <= k < |bugBatches[i]| && bugBatches[i][k] == b;
      assert st.games[i] in st.games;
      if b.patchId.Some? {
        var j :| 0 <= j < |st.patches| && PatchIds(st.patches)[j] == b.patchId.value;
        assert st.patches[j] in st.patches;
      }
    }
    AddBugReports(st, reports, bound);
  }

  /** Stage 6: each evaluation belongs to a listed game. */
  lemma EvaluationsStageSound(st: EditorStore, gameBatches: seq<seq<GameRows>>, evaluationBatches: seq<seq<Evaluation>>, bound: nat)
    requires Sound(st, bound) && EmptyFrom(st, EvaluationsStage)
    requires st.games == GamesOf(Flatten(gameBatches))
    requires |evaluationBatches| == |Flatten(gameBatches)|
    requires forall i, k :: 0 <= i < |evaluationBatches| && 0 <= k < |evaluationBatches[i]| ==>
               evaluationBatches[i][k].gameId == GameIds(Flatten(gameBatches))[i]
    ensures Sound(st.(evaluations := Flatten(evaluationBatches)), bound)
  {
    var evaluations := Flatten(evaluationBatches);
    forall v | v in evaluations
      ensures HasGame(st, v.gameId)
    {
      FlattenIndex(evaluationBatches, v);
      var i, k :| 0 <= i < |evaluationBatches| && 0 <= k < |evaluationBatches[i]| && evaluationBatches[i][k] == v;
      assert st.games[i] in st.games;
    }
    AddEvaluations(st, evaluations, bound);
  }
}
