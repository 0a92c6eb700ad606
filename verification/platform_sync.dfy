/** PlatformDbLoader: the platform store is computed from the editor store alone. Every editor is
    copied; a game with its platform and genre rows only when published; a DLC or a patch only
    when it and its game are both published. The generator objects handed to `loadData` are
    never consulted. */
module PlatformSync {
  import opened Common
  import opened Rows

  /** The four steps of `loadData`, in the order they run. */
  datatype SyncStage = EditorsSync | GamesSync | DlcsSync | PatchesSync
  {
    function Index(): nat {
      match this
      case EditorsSync => 0
      case GamesSync => 1
      case DlcsSync => 2
      case PatchesSync => 3
    }
  }

  /** `syncEditors`: each selected row is inserted with its five columns. */
  function CopyEditors(rows: seq<Editor>): (r: seq<Editor>)
    ensures r == rows
  {
    seq(|rows|, i requires 0 <= i < |rows| => Editor(rows[i].id, rows[i].name, rows[i].password, rows[i].kind, rows[i].description))
  }

  /** The platform row of a game: its columns without `is_publish`. */
  function PlatformGameOf(g: Game): PlatformGame {
    PlatformGame(g.id, g.editorId, g.name, g.price, g.version)
  }

  function PlatformDlcOf(d: Dlc): PlatformDlc {
    PlatformDlc(d.id, d.gameId, d.editorId, d.name, d.price, d.version)
  }

  /** The platform row of a patch: `modifications` becomes `description`; `comment` and
      `is_publish` are dropped. */
  function PlatformPatchOf(p: Patch): PlatformPatch {
    PlatformPatch(p.id, p.isPatchOfGame, p.gameId, p.platform, p.oldVersion, p.newVersion, p.modifications)
  }

  /** Some game with that id is published: what the `INNER JOIN game g ... AND g.is_publish = true`
      asks of a DLC's or patch's game. */
  predicate PublishedGame(games: seq<Game>, id: Id) {
    exists g :: g in games && g.id == id && g.isPublish
  }

  /** `SELECT ... FROM game WHERE is_publish = true`, each row inserted without its flag. */
  function SyncGames(games: seq<Game>): (r: seq<PlatformGame>)
    ensures forall pg :: pg in r <==> exists g :: g in games && g.isPublish && pg == PlatformGameOf(g)
    ensures |r| <= |games|
    decreases |games|
  {
    if |games| == 0 then []
    else
      var rest := SyncGames(games[1..]);
      assert forall g :: g in games <==> g == games[0] || g in games[1..];
      if games[0].isPublish then [PlatformGameOf(games[0])] + rest else rest
  }

  /** `SELECT ... WHERE game_id = ?` on an association table whose game column is `key`. */
  function Select<T(==, !new)>(rows: seq<T>, key: T -> Id, id: Id): (r: seq<T>)
    ensures forall x :: x in r <==> x in rows && key(x) == id
    decreases |rows|
  {
    if |rows| == 0 then []
    else
      var rest := Select(rows[1..], key, id);
      assert forall x :: x in rows <==> x == rows[0] || x in rows[1..];
      if key(rows[0]) == id then [rows[0]] + rest else rest
  }

  /** `syncGamePlatforms` / `syncGameGenres`, called once per published game in selection order. */
  function SyncAssociations<T(==, !new)>(games: seq<Game>, rows: seq<T>, key: T -> Id): (r: seq<T>)
    ensures forall x :: x in r <==> x in rows && PublishedGame(games, key(x))
    decreases |games|
  {
    if |games| == 0 then []
    else
      var rest := SyncAssociations(games[1..], rows, key);
      assert forall id :: PublishedGame(games, id) <==> (games[0].id == id && games[0].isPublish) || PublishedGame(games[1..], id) by {
        forall id ensures PublishedGame(games, id) <==> (games[0].id == id && games[0].isPublish) || PublishedGame(games[1..], id) {
          assert forall g :: g in games <==> g == games[0] || g in games[1..];
        }
      }
      if games[0].isPublish then Select(rows, key, games[0].id) + rest else rest
  }

  /** `syncPublishedDLCs`: the DLCs selected by the join, in table order. */
  function SyncDlcs(games: seq<Game>, dlcs: seq<Dlc>): (r: seq<PlatformDlc>)
    ensures forall pd :: pd in r <==> exists d :: d in dlcs && d.isPublish && PublishedGame(games, d.gameId) && pd == PlatformDlcOf(d)
    decreases |dlcs|
  {
    if |dlcs| == 0 then []
    else
      var rest := SyncDlcs(games, dlcs[1..]);
      assert forall d :: d in dlcs <==> d == dlcs[0] || d in dlcs[1..];
      if dlcs[0].isPublish && PublishedGame(games, dlcs[0].gameId) then [PlatformDlcOf(dlcs[0])] + rest else rest
  }

  /** `syncPublishedPatches`: the patches selected by the join, in table order. */
  function SyncPatches(games: seq<Game>, patches: seq<Patch>): (r: seq<PlatformPatch>)
    ensures forall pp :: pp in r <==> exists p :: p in patches && p.isPublish && PublishedGame(games, p.gameId) && pp == PlatformPatchOf(p)
    decreases |patches|
  {
    if |patches| == 0 then []
    else
      var rest := SyncPatches(games, patches[1..]);
      assert forall p :: p in patches <==> p == patches[0] || p in patches[1..];
      if patches[0].isPublish && PublishedGame(games, patches[0].gameId) then [PlatformPatchOf(patches[0])] + rest else rest
  }

  function PlatformKey(r: GamePlatform): Id { r.gameId }

  function GenreKey(r: GameGenre): Id { r.gameId }

  /** The platform store after the first `steps` steps of `loadData` (0 to 4): every editor once
      the first step ran; published games with their platform and genre rows once the second
      ran; the DLCs, then the patches, that are published and belong to a published game once
      the third, then the fourth, ran. */
  function SyncThrough(src: EditorStore, steps: nat): (p: PlatformStore)
    ensures p.editors == if steps > 0 then src.editors else []
    ensures forall pg :: pg in p.games <==> steps > 1 && exists g :: g in src.games && g.isPublish && pg == PlatformGameOf(g)
    ensures forall x :: x in p.gamePlatforms <==> steps > 1 && x in src.gamePlatforms && PublishedGame(src.games, x.gameId)
    ensures forall x :: x in p.gameGenres <==> steps > 1 && x in src.gameGenres && PublishedGame(src.games, x.gameId)
    ensures forall pd :: pd in p.dlcs <==>
              steps > 2 && exists d :: d in src.dlcs && d.isPublish && PublishedGame(src.games, d.gameId) && pd == PlatformDlcOf(d)
    ensures forall pp :: pp in p.patches <==>
              steps > 3 && exists q :: q in src.patches && q.isPublish && PublishedGame(src.games, q.gameId) && pp == PlatformPatchOf(q)
  {
    PlatformStore(
      if steps > 0 then CopyEditors(src.editors) else [],
      if steps > 1 then SyncGames(src.games) else [],
      if steps > 1 then SyncAssociations(src.games, src.gamePlatforms, PlatformKey) else [],
      if steps > 1 then SyncAssociations(src.games, src.gameGenres, GenreKey) else [],
      if steps > 2 then SyncDlcs(src.games, src.dlcs) else [],
      if steps > 3 then SyncPatches(src.games, src.patches) else [])
  }

  /** Each table of `part` is empty or equal to that table of `full`. */
  predicate TablewisePrefix(part: PlatformStore, full: PlatformStore) {
    && (part.editors == [] || part.editors == full.editors)
    && (part.games == [] || part.games == full.games)
    && (part.gamePlatforms == [] || part.gamePlatforms == full.gamePlatforms)
    && (part.gameGenres == [] || part.gameGenres == full.gameGenres)
    && (part.dlcs == [] || part.dlcs == full.dlcs)
    && (part.patches == [] || part.patches == full.patches)
  }

  /** `loadData` run to completion: whatever an interrupted run leaves behind is, table by
      table, either empty or what the complete run inserts. */
  function Sync(src: EditorStore): (r: PlatformStore)
    ensures forall steps: nat :: TablewisePrefix(SyncThrough(src, steps), r)
  {
    SyncThrough(src, 4)
  }

  /** The end of `loadData`: every step ran, or the step whose insert raised the rethrown
      `SQLException`, with what the earlier steps inserted. */
  datatype SyncOutcome = Synced(store: PlatformStore) | SyncFailed(stage: SyncStage, store: PlatformStore)

  function LoadPlatform(src: EditorStore, failAt: Option<SyncStage>): (r: SyncOutcome)
    ensures r.Synced? <==> failAt.None?
    ensures r.Synced? ==> r.store == Sync(src)
    ensures r.SyncFailed? ==> failAt == Some(r.stage) && r.store == SyncThrough(src, r.stage.Index())
  {
    match failAt
    case None => Synced(Sync(src))
    case Some(stage) => SyncFailed(stage, SyncThrough(src, stage.Index()))
  }

  /** Every editor is copied unchanged and none is filtered out. */
  lemma EditorsCopied(src: EditorStore)
    ensures Sync(src).editors == src.editors
  {
  }

  /** A game id reaches the platform store exactly when a published game carries it. */
  lemma GameSyncedIff(src: EditorStore, id: Id)
    ensures (exists pg :: pg in Sync(src).games && pg.id == id) <==> PublishedGame(src.games, id)
  {
    if PublishedGame(src.games, id) {
      var g :| g in src.games && g.id == id && g.isPublish;
      assert PlatformGameOf(g) in Sync(src).games;
    }
  }

  /** Closure: every DLC and every patch of the platform store has its game there too. */
  lemma SyncClosed(src: EditorStore)
    ensures forall d :: d in Sync(src).dlcs ==> exists g :: g in Sync(src).games && g.id == d.gameId
    ensures forall p :: p in Sync(src).patches ==> exists g :: g in Sync(src).games && g.id == p.gameId
  {
    forall d | d in Sync(src).dlcs
      ensures exists g :: g in Sync(src).games && g.id == d.gameId
    {
      GameSyncedIff(src, d.gameId);
    }
    forall p | p in Sync(src).patches
      ensures exists g :: g in Sync(src).games && g.id == p.gameId
    {
      GameSyncedIff(src, p.gameId);
    }
  }

  /** Parents are inserted before children: after any number of steps, every foreign key of
      the platform store resolves, provided every game's editor is in the editor store. */
  lemma SyncStagesIntact(src: EditorStore, steps: nat)
    requires forall g :: g in src.games ==> HasEditor(src, g.editorId)
    ensures PlatformIntact(SyncThrough(src, steps))
  {
    var p := SyncThrough(src, steps);
    if steps > 1 {
      forall pg | pg in p.games
        ensures exists e :: e in p.editors && e.id == pg.editorId
      {
        var g :| g in src.games && g.isPublish && pg == PlatformGameOf(g);
        var e :| e in src.editors && e.id == g.editorId;
      }
      forall r | r in p.gamePlatforms
        ensures exists g :: g in p.games && g.id == r.gameId
      {
        GameSyncedIff(src, r.gameId);
      }
      forall r | r in p.gameGenres
        ensures exists g :: g in p.games && g.id == r.gameId
      {
        GameSyncedIff(src, r.gameId);
      }
    }
    if steps > 2 {
      forall d | d in p.dlcs
        ensures exists g :: g in p.games && g.id == d.gameId
      {
        GameSyncedIff(src, d.gameId);
      }
    }
    if steps > 3 {
      forall q | q in p.patches
        ensures exists g :: g in p.games && g.id == q.gameId
      {
        GameSyncedIff(src, q.gameId);
      }
    }
  }

  /** `Select` distributes over concatenation. */
  lemma {:induction false} SelectAppend<T(!new)>(a: seq<T>, b: seq<T>, key: T -> Id, id: Id)
    ensures Select(a + b, key, id) == Select(a, key, id) + Select(b, key, id)
    decreases |a|
  {
    if |a| == 0 {
      assert a + b == b;
    } else {
      assert (a + b)[0] == a[0] && (a + b)[1..] == a[1..] + b;
      SelectAppend(a[1..], b, key, id);
    }
  }

  /** Selecting twice by game id. */
  lemma {:induction false} SelectSelect<T(!new)>(rows: seq<T>, key: T -> Id, id1: Id, id2: Id)
    ensures Select(Select(rows, key, id1), key, id2) == if id1 == id2 then Select(rows, key, id1) else []
    decreases |rows|
  {
    if |rows| > 0 {
      SelectSelect(rows[1..], key, id1, id2);
    }
  }

  /** For each published game exactly its own association rows are copied, in their order;
      for any other id none. Game ids are the `game` table's primary key, hence pairwise different. */
  lemma {:induction false} AssociationsExact<T(!new)>(games: seq<Game>, rows: seq<T>, key: T -> Id, id: Id)
    requires forall i, j :: 0 <= i < j < |games| ==> games[i].id != games[j].id
    ensures Select(SyncAssociations(games, rows, key), key, id) == if PublishedGame(games, id) then Select(rows, key, id) else []
    decreases |games|
  {
    if |games| > 0 {
      var g, tail := games[0], games[1..];
      var rest := SyncAssociations(tail, rows, key);
      assert forall i, j :: 0 <= i < j < |tail| ==> tail[i].id != tail[j].id by {
        forall i, j | 0 <= i < j < |tail| ensures tail[i].id != tail[j].id {
          assert tail[i] == games[i + 1] && tail[j] == games[j + 1];
        }
      }
      AssociationsExact(tail, rows, key, id);
      assert PublishedGame(games, id) <==> (g.id == id && g.isPublish) || PublishedGame(tail, id) by {
        assert forall x :: x in games <==> x == g || x in tail;
      }
      if g.id == id {
        forall x | x in tail ensures x.id != id {
          var k :| 0 <= k < |tail| && tail[k] == x;
          assert games[k + 1] == x;
        }
        assert !PublishedGame(tail, id);
      }
      if g.isPublish {
        assert SyncAssociations(games, rows, key) == Select(rows, key, g.id) + rest;
        SelectAppend(Select(rows, key, g.id), rest, key, id);
        SelectSelect(rows, key, g.id, id);
      } else {
        assert SyncAssociations(games, rows, key) == rest;
      }
    }
  }
}
