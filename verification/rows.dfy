/** The rows of the two stores. The editor store (`editor_db`) holds everything the generators
    produce; the platform store (`platform_db`) holds the published part under a schema without
    publish flags and with a patch `description` in place of `comment`/`modifications`.
    Prices are integer cents and version numbers integer tenths. */
module Rows {
  import opened Common

  /** `type` holds the enum literal "entreprise" or "particulier". */
  datatype Editor = Editor(id: Id, name: string, password: string, kind: string, description: string)

  datatype Game = Game(id: Id, editorId: Id, name: string, price: int, version: int, isPublish: bool)

  datatype GamePlatform = GamePlatform(gameId: Id, platform: Platform)

  datatype GameGenre = GameGenre(gameId: Id, genre: Genre)

  datatype Dlc = Dlc(id: Id, gameId: Id, editorId: Id, name: string, price: int, version: int, isPublish: bool)

  datatype Patch = Patch(
    id: Id,
    isPatchOfGame: bool,
    gameId: Id,
    platform: Platform,
    oldVersion: int,
    newVersion: int,
    comment: string,
    modifications: string,
    isPublish: bool)

  /** `bug_report(id_game, id_patch, description, plateforme)`; its key is assigned by the database. */
  datatype BugReport = BugReport(gameId: Id, patchId: Option<Id>, description: string, platform: Platform)

  /** `evaluation(id_game, description, plateforme, note)`; its key is assigned by the database. */
  datatype Evaluation = Evaluation(gameId: Id, description: string, platform: Platform, note: int)

  datatype EditorStore = EditorStore(
    editors: seq<Editor>,
    games: seq<Game>,
    gamePlatforms: seq<GamePlatform>,
    gameGenres: seq<GameGenre>,
    dlcs: seq<Dlc>,
    patches: seq<Patch>,
    bugReports: seq<BugReport>,
    evaluations: seq<Evaluation>)

  const EmptyEditorStore := EditorStore([], [], [], [], [], [], [], [])

  datatype PlatformGame = PlatformGame(id: Id, editorId: Id, name: string, price: int, version: int)

  datatype PlatformDlc = PlatformDlc(id: Id, gameId: Id, editorId: Id, name: string, price: int, version: int)

  datatype PlatformPatch = PlatformPatch(
    id: Id,
    isPatchOfGame: bool,
    gameId: Id,
    platform: Platform,
    oldVersion: int,
    newVersion: int,
    description: string)

  datatype PlatformStore = PlatformStore(
    editors: seq<Editor>,
    games: seq<PlatformGame>,
    gamePlatforms: seq<GamePlatform>,
    gameGenres: seq<GameGenre>,
    dlcs: seq<PlatformDlc>,
    patches: seq<PlatformPatch>)

  const EmptyPlatformStore := PlatformStore([], [], [], [], [], [])

  predicate HasEditor(s: EditorStore, id: Id) {
    exists e :: e in s.editors && e.id == id
  }

  predicate HasGame(s: EditorStore, id: Id) {
    exists g :: g in s.games && g.id == id
  }

  predicate HasPatch(s: EditorStore, id: Id) {
    exists p :: p in s.patches && p.id == id
  }

  /** Every foreign key of the editor schema points at an existing row, and a DLC's
      denormalised `editor_id` is its game's editor. */
  predicate Intact(s: EditorStore) {
    && (forall g :: g in s.games ==> HasEditor(s, g.editorId))
    && (forall r :: r in s.gamePlatforms ==> HasGame(s, r.gameId))
    && (forall r :: r in s.gameGenres ==> HasGame(s, r.gameId))
    && (forall d :: d in s.dlcs ==> exists g :: g in s.games && g.id == d.gameId && g.editorId == d.editorId)
    && (forall p :: p in s.patches ==> HasGame(s, p.gameId))
    && (forall b :: b in s.bugReports ==> HasGame(s, b.gameId) && (b.patchId.Some? ==> HasPatch(s, b.patchId.value)))
    && (forall v :: v in s.evaluations ==> HasGame(s, v.gameId))
  }

  /** Every foreign key of the platform schema points at an existing row. */
  predicate PlatformIntact(p: PlatformStore) {
    && (forall g :: g in p.games ==> exists e :: e in p.editors && e.id == g.editorId)
    && (forall r :: r in p.gamePlatforms ==> exists g :: g in p.games && g.id == r.gameId)
    && (forall r :: r in p.gameGenres ==> exists g :: g in p.games && g.id == r.gameId)
    && (forall d :: d in p.dlcs ==> exists g :: g in p.games && g.id == d.gameId)
    && (forall q :: q in p.patches ==> exists g :: g in p.games && g.id == q.gameId)
  }

  /** Primary keys of the editor store are pairwise different. */
  predicate UniqueKeys(s: EditorStore) {
    && (forall i, j :: 0 <= i < j < |s.editors| ==> s.editors[i].id != s.editors[j].id)
    && (forall i, j :: 0 <= i < j < |s.games| ==> s.games[i].id != s.games[j].id)
    && (forall i, j :: 0 <= i < j < |s.dlcs| ==> s.dlcs[i].id != s.dlcs[j].id)
    && (forall i, j :: 0 <= i < j < |s.patches| ==> s.patches[i].id != s.patches[j].id)
  }

  /** Every key already in the store lies below `bound`, so ids handed out from `bound` on are new. */
  predicate KeysBelow(s: EditorStore, bound: Id) {
    && (forall e :: e in s.editors ==> e.id < bound)
    && (forall g :: g in s.games ==> g.id < bound)
    && (forall d :: d in s.dlcs ==> d.id < bound)
    && (forall p :: p in s.patches ==> p.id < bound)
  }
}
