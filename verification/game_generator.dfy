/** GameGenerator: for every editor, a sampled number of games, each with 1-4 platforms and
    1-3 genres, plus the generator's two side tables: editor -> game ids, and game id -> publish flag. */
module GameGenerator {
  import opened Common
  import opened Faker
  import opened Rows
  import opened PublishMap
  import opened Text

  /** The gerunds of name template 8. */
  const Verbs: seq<string> := ["Fighting", "Racing", "Building", "Exploring", "Hunting",
                               "Conquering", "Defending", "Surviving", "Crafting", "Rising"]

  /** One entry of `editorGamesMap`. */
  datatype EditorGames = EditorGames(editorId: Id, gameIds: seq<Id>)

  /** The generator object. `editorGames` is a hash map in Java; the model keeps its entries in
      insertion order, which is the iteration order every caller then sees. */
  datatype GameGen = GameGen(editorGames: seq<EditorGames>, publish: map<Id, bool>)

  const NewGameGen := GameGen([], map[])

  /** A game row together with the association rows inserted right after it. */
  datatype GameRows = GameRows(game: Game, platforms: seq<GamePlatform>, genres: seq<GameGenre>)

  /** `generateGameName`: `nextInt(10)` selects one of ten templates around Faker text. Every
      template but "The Legend of ..." starts with the first Faker word, each carries its fixed
      text, and the `default` branch is never taken. */
  function GameName(s: Src): (r: (string, Src))
    ensures r.1.nextId == s.nextId
    ensures var v := Peek(s) % 10; var w := NextWord(Consume(s)).0;
            && (v != 3 ==> StartsWith(r.0, w))
            && (v == 0 || v == 7 ==> r.0 == w)
            && (v == 1 ==> StartsWith(r.0, w + ": "))
            && (v == 2 ==> EndsWith(r.0, " Chronicles"))
            && (v == 3 ==> r.0 == "The Legend of " + w)
            && (v == 4 ==> EndsWith(r.0, " Warriors"))
            && (v == 5 ==> EndsWith(r.0, " Simulator"))
            && (v == 6 ==> EndsWith(r.0, ": The Game"))
            && (v == 8 ==> exists verb :: verb in Verbs && EndsWith(r.0, "'s " + verb))
            && (v == 9 ==> EndsWith(r.0, " Fighter"))
  {
    var (variant, s1) := NextInt(s, 10);
    var (w, s2) := NextWord(s1);
    if variant == 0 then (w, s2)
    else if variant == 1 then
      var (w2, s3) := NextWord(s2);
      ConcatAffixes(w + ": ", w2);
      ConcatAffixes(w, ": " + w2);
      assert w + ": " + w2 == w + (": " + w2);
      (w + ": " + w2, s3)
    else if variant == 2 then ConcatAffixes(w, " Chronicles"); (w + " Chronicles", s2)
    else if variant == 3 then ("The Legend of " + w, s2)
    else if variant == 4 then ConcatAffixes(w, " Warriors"); (w + " Warriors", s2)
    else if variant == 5 then ConcatAffixes(w, " Simulator"); (w + " Simulator", s2)
    else if variant == 6 then ConcatAffixes(w, ": The Game"); (w + ": The Game", s2)
    else if variant == 7 then (w, s2)
    else if variant == 8 then
      var (verb, s3) := RandomElement(s2, Verbs);
      ConcatAffixes(w, "'s " + verb);
      assert w + "'s " + verb == w + ("'s " + verb);
      (w + "'s " + verb, s3)
    else ConcatAffixes(w, " Fighter"); (w + " Fighter", s2)
  }

  predicate DistinctPlatforms(rows: seq<GamePlatform>) {
    forall i, j :: 0 <= i < j < |rows| ==> rows[i].platform != rows[j].platform
  }

  predicate DistinctGenres(rows: seq<GameGenre>) {
    forall i, j :: 0 <= i < j < |rows| ==> rows[i].genre != rows[j].genre
  }

  lemma PlatformsDistinct()
    ensures Distinct(Platforms)
  {
  }

  lemma GenresDistinct()
    ensures Distinct(Genres)
  {
  }

  /** One association row per platform, in order. */
  function PlatformRows(id: Id, ps: seq<Platform>): (r: seq<GamePlatform>)
    ensures |r| == |ps|
    ensures forall i :: 0 <= i < |ps| ==> r[i] == GamePlatform(id, ps[i])
    ensures forall x :: x in r ==> x.gameId == id
    ensures Distinct(ps) ==> DistinctPlatforms(r)
  {
    seq(|ps|, i requires 0 <= i < |ps| => GamePlatform(id, ps[i]))
  }

  /** One association row per genre, in order. */
  function GenreRows(id: Id, gs: seq<Genre>): (r: seq<GameGenre>)
    ensures |r| == |gs|
    ensures forall i :: 0 <= i < |gs| ==> r[i] == GameGenre(id, gs[i])
    ensures forall x :: x in r ==> x.gameId == id
    ensures Distinct(gs) ==> DistinctGenres(r)
  {
    seq(|gs|, i requires 0 <= i < |gs| => GameGenre(id, gs[i]))
  }

  /** The platform column of association rows. */
  function PlatformsOf(rows: seq<GamePlatform>): (r: seq<Platform>)
    ensures |r| == |rows| && forall i :: 0 <= i < |rows| ==> r[i] == rows[i].platform
  {
    seq(|rows|, i requires 0 <= i < |rows| => rows[i].platform)
  }

  /** The genre column of association rows. */
  function GenresOf(rows: seq<GameGenre>): (r: seq<Genre>)
    ensures |r| == |rows| && forall i :: 0 <= i < |rows| ==> r[i] == rows[i].genre
  {
    seq(|rows|, i requires 0 <= i < |rows| => rows[i].genre)
  }

  lemma PlatformRowsColumn(id: Id, ps: seq<Platform>)
    ensures PlatformsOf(PlatformRows(id, ps)) == ps
  {
  }

  lemma GenreRowsColumn(id: Id, gs: seq<Genre>)
    ensures GenresOf(GenreRows(id, gs)) == gs
  {
  }

  /** `insertGamePlatforms`: shuffle a copy of PLATFORMS, then insert its first `randomInt(1, 4)`
      entries, so the platforms are a prefix of a permutation of the four values. */
  method InsertGamePlatforms(id: Id, s: Src) returns (rows: seq<GamePlatform>, s': Src)
    ensures 1 <= |rows| <= 4
    ensures forall x :: x in rows ==> x.gameId == id
    ensures DistinctPlatforms(rows)
    ensures exists perm: seq<Platform> :: multiset(perm) == multiset(Platforms) && |rows| <= |perm| && PlatformsOf(rows) == perm[..|rows|]
    ensures s'.nextId == s.nextId
  {
    PlatformsDistinct();
    var (chosen, s1) := ShuffledPrefix(s, Platforms, 1, 4);
    s' := s1;
    ghost var perm: seq<Platform> :| multiset(perm) == multiset(Platforms) && |chosen| <= |perm| && chosen == perm[..|chosen|];
    rows := PlatformRows(id, chosen);
    PlatformRowsColumn(id, chosen);
  }

  /** `insertGameGenres`: the same with GENRES and `randomInt(1, 3)`. */
  method InsertGameGenres(id: Id, s: Src) returns (rows: seq<GameGenre>, s': Src)
    ensures 1 <= |rows| <= 3
    ensures forall x :: x in rows ==> x.gameId == id
    ensures DistinctGenres(rows)
    ensures exists perm: seq<Genre> :: multiset(perm) == multiset(Genres) && |rows| <= |perm| && GenresOf(rows) == perm[..|rows|]
    ensures s'.nextId == s.nextId
  {
    GenresDistinct();
    var (chosen, s1) := ShuffledPrefix(s, Genres, 1, 3);
    s' := s1;
    ghost var perm: seq<Genre> :| multiset(perm) == multiset(Genres) && |chosen| <= |perm| && chosen == perm[..|chosen|];
    rows := GenreRows(id, chosen);
    GenreRowsColumn(id, chosen);
  }

  /** What every generated game satisfies. */
  predicate GameRowsOk(x: GameRows, editorId: Id, publishPct: int) {
    && x.game.editorId == editorId
    && 599 <= x.game.price <= 7999
    && 10 <= x.game.version <= 100
    && (publishPct >= 100 ==> x.game.isPublish)
    && (publishPct <= 0 ==> !x.game.isPublish)
    && 1 <= |x.platforms| <= 4
    && (forall p :: p in x.platforms ==> p.gameId == x.game.id)
    && DistinctPlatforms(x.platforms)
    && 1 <= |x.genres| <= 3
    && (forall g :: g in x.genres ==> g.gameId == x.game.id)
    && DistinctGenres(x.genres)
  }

  /** One iteration of `generateGamesForEditor`: id, name, price in cents from 5.99 to 79.99,
      version in tenths from 1.0 to 10.0, publish flag, then platforms and genres. */
  method GenerateGame(editorId: Id, cfg: Config, s: Src) returns (x: GameRows, s': Src)
    ensures x.game.id == s.nextId && s'.nextId == s.nextId + 1
    ensures GameRowsOk(x, editorId, cfg.publishPct)
  {
    var (id, s1) := FreshId(s);
    var (name, s2) := GameName(s1);
    var (price, s3) := RoundedDouble(s2, 599, 7999);
    var (version, s4) := RoundedDouble(s3, 10, 100);
    var (isPublish, s5) := RandomBool(s4, cfg.publishPct);
    var platforms, s6 := InsertGamePlatforms(id, s5);
    var genres, s7 := InsertGameGenres(id, s6);
    x := GameRows(Game(id, editorId, name, price, version, isPublish), platforms, genres);
    s' := s7;
  }

  /** `generateGamesForEditor(editorId, numGames)`: `numGames` games with consecutive fresh ids. */
  method GenerateGamesForEditor(editorId: Id, n: int, cfg: Config, s: Src) returns (games: seq<GameRows>, s': Src)
    ensures |games| == Clamp0(n)
    ensures forall k :: 0 <= k < |games| ==> games[k].game.id == s.nextId + k
    ensures s'.nextId == s.nextId + Clamp0(n)
    ensures forall k :: 0 <= k < |games| ==> GameRowsOk(games[k], editorId, cfg.publishPct)
  {
    games, s' := [], s;
    var i := 0;
    while i < n
      invariant 0 <= i <= Clamp0(n)
      invariant |games| == i && s'.nextId == s.nextId + i
      invariant forall k :: 0 <= k < i ==> games[k].game.id == s.nextId + k
      invariant forall k :: 0 <= k < i ==> GameRowsOk(games[k], editorId, cfg.publishPct)
    {
      var x;
      x, s' := GenerateGame(editorId, cfg, s');
      games := games + [x];
      i := i + 1;
    }
  }

  function GameIds(xs: seq<GameRows>): (r: seq<Id>)
    ensures |r| == |xs| && forall i :: 0 <= i < |xs| ==> r[i] == xs[i].game.id
  {
    seq(|xs|, i requires 0 <= i < |xs| => xs[i].game.id)
  }

  /** The id lists of map entries, in order. */
  function EntryLists(es: seq<EditorGames>): (r: seq<seq<Id>>)
    ensures |r| == |es| && forall i :: 0 <= i < |es| ==> r[i] == es[i].gameIds
  {
    seq(|es|, i requires 0 <= i < |es| => es[i].gameIds)
  }

  /** `editorGamesMap.put(editorId, gameIds)`: replaces the entry of that editor, or adds one. */
  function Put(es: seq<EditorGames>, e: EditorGames): seq<EditorGames>
    decreases |es|
  {
    if |es| == 0 then [e]
    else if es[0].editorId == e.editorId then [e] + es[1..]
    else [es[0]] + Put(es[1..], e)
  }

  /** Looked up after a put, the editor has the new list and every other editor its old one;
      the map gains at most one entry. */
  lemma {:induction false} PutLookup(es: seq<EditorGames>, e: EditorGames)
    ensures EntryFor(Put(es, e), e.editorId) == e.gameIds
    ensures forall id :: id != e.editorId ==> EntryFor(Put(es, e), id) == EntryFor(es, id)
    ensures |es| <= |Put(es, e)| <= |es| + 1
    decreases |es|
  {
    if |es| > 0 && es[0].editorId != e.editorId {
      PutLookup(es[1..], e);
    }
  }

  /** `put` of each new entry in turn. */
  function PutAll(es: seq<EditorGames>, news: seq<EditorGames>): seq<EditorGames>
    decreases |news|
  {
    if |news| == 0 then es else PutAll(Put(es, news[0]), news[1..])
  }

  /** After the puts an editor has the list of its last new entry, and an editor without a new
      entry keeps its old list. */
  lemma {:induction false} PutAllLookup(es: seq<EditorGames>, news: seq<EditorGames>)
    ensures forall i :: 0 <= i < |news| && (forall j :: i < j < |news| ==> news[j].editorId != news[i].editorId) ==>
              EntryFor(PutAll(es, news), news[i].editorId) == news[i].gameIds
    ensures forall id :: (forall j :: 0 <= j < |news| ==> news[j].editorId != id) ==>
              EntryFor(PutAll(es, news), id) == EntryFor(es, id)
    decreases |news|
  {
    if |news| > 0 {
      var tail := news[1..];
      assert forall j :: 0 <= j < |tail| ==> tail[j] == news[j + 1];
      PutLookup(es, news[0]);
      PutAllLookup(Put(es, news[0]), tail);
    }
  }

  /** The `(id, isPublish)` pairs put into `gamePublishStatus`, in generation order. */
  function GameFlags(xs: seq<GameRows>): (r: seq<(Id, bool)>)
    ensures |r| == |xs| && forall i :: 0 <= i < |xs| ==> r[i] == (xs[i].game.id, xs[i].game.isPublish)
  {
    seq(|xs|, i requires 0 <= i < |xs| => (xs[i].game.id, xs[i].game.isPublish))
  }

  /** The entries `generateGames` puts into `editorGamesMap`: each editor with the ids of its batch. */
  function Entries(editorIds: seq<Id>, batches: seq<seq<GameRows>>): (r: seq<EditorGames>)
    requires |batches| == |editorIds|
    ensures |r| == |editorIds| && forall i :: 0 <= i < |r| ==> r[i] == EditorGames(editorIds[i], GameIds(batches[i]))
  {
    seq(|editorIds|, i requires 0 <= i < |editorIds| => EditorGames(editorIds[i], GameIds(batches[i])))
  }

  /** `generateGames(editorIds)`: for each editor in order, a count drawn from
      `[gamesMin, gamesMax]` and that many games (one batch per editor); each editor's list is put
      into `editorGamesMap` and each game's flag into `gamePublishStatus`. For a fresh generator
      given distinct editors, the map then lists for each editor exactly the ids of its batch. */
  method GenerateGames(gen: GameGen, cfg: Config, editorIds: seq<Id>, s: Src)
    returns (gen': GameGen, batches: seq<seq<GameRows>>, s': Src)
    requires cfg.Valid()
    ensures |batches| == |editorIds|
    ensures SizesIn(batches, cfg.gamesMin, cfg.gamesMax)
    ensures forall i, k :: 0 <= i < |batches| && 0 <= k < |batches[i]| ==> GameRowsOk(batches[i][k], editorIds[i], cfg.publishPct)
    ensures forall k :: 0 <= k < |Flatten(batches)| ==> Flatten(batches)[k].game.id == s.nextId + k
    ensures s'.nextId == s.nextId + |Flatten(batches)|
    ensures forall x :: x in Flatten(batches) ==> IsGamePublished(gen', x.game.id) == x.game.isPublish
    ensures forall id: Id :: id < s.nextId ==> IsGamePublished(gen', id) == IsGamePublished(gen, id)
    ensures gen.editorGames == [] && Distinct(editorIds) ==>
              && gen'.editorGames == Entries(editorIds, batches)
              && AllGameIds(gen') == GameIds(Flatten(batches))
              && forall i :: 0 <= i < |editorIds| ==> GameIdsForEditor(gen', editorIds[i]) == GameIds(batches[i])
  {
    batches, s' := GameBatches(cfg, editorIds, s);
    var games := Flatten(batches);
    gen' := GameGen(PutAll(gen.editorGames, Entries(editorIds, batches)), PutFlags(gen.publish, GameFlags(games)));
    GameFlagsReadBack(gen.publish, games, s.nextId);
    if gen.editorGames == [] && Distinct(editorIds) {
      FreshEditorsListed(Entries(editorIds, batches), editorIds);
      EntryListsOfEntries(editorIds, batches);
    }
  }

  /** The loop of `generateGames`, one batch per editor id. */
  method GameBatches(cfg: Config, editorIds: seq<Id>, s: Src) returns (batches: seq<seq<GameRows>>, s': Src)
    requires cfg.Valid()
    ensures |batches| == |editorIds|
    ensures SizesIn(batches, cfg.gamesMin, cfg.gamesMax)
    ensures forall i, k :: 0 <= i < |batches| && 0 <= k < |batches[i]| ==> GameRowsOk(batches[i][k], editorIds[i], cfg.publishPct)
    ensures forall k :: 0 <= k < |Flatten(batches)| ==> Flatten(batches)[k].game.id == s.nextId + k
    ensures s'.nextId == s.nextId + |Flatten(batches)|
  {
    batches, s' := [], s;
    var i := 0;
    while i < |editorIds|
      invariant 0 <= i <= |editorIds|
      invariant |batches| == i
      invariant forall j :: 0 <= j < i ==> Clamp0(cfg.gamesMin) <= |batches[j]| <= Clamp0(cfg.gamesMax)
      invariant forall j, k :: 0 <= j < i && 0 <= k < |batches[j]| ==> GameRowsOk(batches[j][k], editorIds[j], cfg.publishPct)
      invariant forall k :: 0 <= k < |Flatten(batches)| ==> Flatten(batches)[k].game.id == s.nextId + k
      invariant s'.nextId == s.nextId + |Flatten(batches)|
    {
      var (n, s1) := RandomInt(s', cfg.gamesMin, cfg.gamesMax);
      Clamp0Monotone(cfg.gamesMin, n);
      Clamp0Monotone(n, cfg.gamesMax);
      assert s1.nextId == s'.nextId;
      var batch, s2 := GenerateGamesForEditor(editorIds[i], n, cfg, s1);
      AppendBatch(batches, batch, s.nextId);
      assert forall j :: 0 <= j < i ==> (batches + [batch])[j] == batches[j];
      batches, s' := batches + [batch], s2;
      i := i + 1;
    }
  }

  /** With ids handed out in a row from `base`, the publish map built from the games reads back
      each game's own flag and leaves every older id as it was. */
  lemma GameFlagsReadBack(m: map<Id, bool>, games: seq<GameRows>, base: nat)
    requires forall k :: 0 <= k < |games| ==> games[k].game.id == base + k
    ensures forall x :: x in games ==> Flag(PutFlags(m, GameFlags(games)), x.game.id) == x.game.isPublish
    ensures forall id: Id :: id < base ==> Flag(PutFlags(m, GameFlags(games)), id) == Flag(m, id)
  {
    forall x | x in games
      ensures Flag(PutFlags(m, GameFlags(games)), x.game.id) == x.game.isPublish
    {
      ConsecutiveReadBack(m, GameFlags(games), base, x.game.id);
      var k :| 0 <= k < |games| && games[k] == x;
      assert GameFlags(games)[k] == (x.game.id, x.game.isPublish);
    }
    forall id: Id | id < base
      ensures Flag(PutFlags(m, GameFlags(games)), id) == Flag(m, id)
    {
      ConsecutiveReadBack(m, GameFlags(games), base, id);
    }
  }

  /** Appending a batch whose ids continue the count keeps the ids consecutive. */
  lemma AppendBatch(batches: seq<seq<GameRows>>, batch: seq<GameRows>, base: nat)
    requires forall k :: 0 <= k < |Flatten(batches)| ==> Flatten(batches)[k].game.id == base + k
    requires forall k :: 0 <= k < |batch| ==> batch[k].game.id == base + |Flatten(batches)| + k
    ensures Flatten(batches + [batch]) == Flatten(batches) + batch
    ensures forall k :: 0 <= k < |Flatten(batches + [batch])| ==> Flatten(batches + [batch])[k].game.id == base + k
  {
    FlattenAppend(batches, batch);
    var f := Flatten(batches);
    forall k | |f| <= k < |f + batch|
      ensures (f + batch)[k] == batch[k - |f|]
    {
    }
  }

  /** The ids of all games, in order, are the entries' lists concatenated. */
  lemma EntryListsOfEntries(editorIds: seq<Id>, batches: seq<seq<GameRows>>)
    requires |batches| == |editorIds|
    ensures Flatten(EntryLists(Entries(editorIds, batches))) == GameIds(Flatten(batches))
  {
    var lists := EntryLists(Entries(editorIds, batches));
    assert lists == BatchIds(batches);
    GameIdsFlatten(batches);
  }

  function BatchIds(batches: seq<seq<GameRows>>): (r: seq<seq<Id>>)
    ensures |r| == |batches| && forall i :: 0 <= i < |batches| ==> r[i] == GameIds(batches[i])
  {
    seq(|batches|, i requires 0 <= i < |batches| => GameIds(batches[i]))
  }

  lemma {:induction false} GameIdsFlatten(batches: seq<seq<GameRows>>)
    ensures GameIds(Flatten(batches)) == Flatten(BatchIds(batches))
    decreases |batches|
  {
    if |batches| > 0 {
      GameIdsFlatten(batches[1..]);
      assert BatchIds(batches)[1..] == BatchIds(batches[1..]);
      assert GameIds(batches[0] + Flatten(batches[1..])) == GameIds(batches[0]) + GameIds(Flatten(batches[1..]));
    }
  }

  /** Putting the entries of distinct editors into an empty map keeps them in order, and each
      editor then looks up its own list. */
  lemma FreshEditorsListed(entries: seq<EditorGames>, editorIds: seq<Id>)
    requires |entries| == |editorIds| && Distinct(editorIds)
    requires forall i :: 0 <= i < |editorIds| ==> entries[i].editorId == editorIds[i]
    ensures PutAll([], entries) == entries
    ensures forall i :: 0 <= i < |editorIds| ==> EntryFor(entries, editorIds[i]) == entries[i].gameIds
  {
    PutAllAppends([], entries);
    assert [] + entries == entries;
    forall i | 0 <= i < |editorIds| ensures EntryFor(entries, editorIds[i]) == entries[i].gameIds {
      forall j | 0 <= j < i ensures entries[j].editorId != editorIds[i] {
        assert entries[j].editorId == editorIds[j];
      }
      EntryForFirst(entries, editorIds[i]);
    }
  }

  /** `getAllGameIds`: every list of the map, concatenated in iteration order. */
  function AllGameIds(gen: GameGen): seq<Id> {
    Flatten(EntryLists(gen.editorGames))
  }

  /** `getGameIdsForEditor`: the editor's list, or an empty list for an editor not in the map. */
  function GameIdsForEditor(gen: GameGen, editorId: Id): (r: seq<Id>)
    ensures (forall i :: 0 <= i < |gen.editorGames| ==> gen.editorGames[i].editorId != editorId) ==> r == []
    ensures forall i :: (0 <= i < |gen.editorGames| && gen.editorGames[i].editorId == editorId &&
                         (forall j :: 0 <= j < i ==> gen.editorGames[j].editorId != editorId)) ==> r == gen.editorGames[i].gameIds
  {
    EntryForFirst(gen.editorGames, editorId);
    EntryFor(gen.editorGames, editorId)
  }

  /** The list stored under the first entry for `editorId`, or an empty list. */
  function EntryFor(es: seq<EditorGames>, editorId: Id): seq<Id>
    decreases |es|
  {
    if |es| == 0 then []
    else if es[0].editorId == editorId then es[0].gameIds
    else EntryFor(es[1..], editorId)
  }

  /** The lookup finds the first entry of the editor, and nothing when it has none. */
  lemma {:induction false} EntryForFirst(es: seq<EditorGames>, editorId: Id)
    ensures (forall i :: 0 <= i < |es| ==> es[i].editorId != editorId) ==> EntryFor(es, editorId) == []
    ensures forall i :: (0 <= i < |es| && es[i].editorId == editorId &&
                         (forall j :: 0 <= j < i ==> es[j].editorId != editorId)) ==> EntryFor(es, editorId) == es[i].gameIds
    decreases |es|
  {
    if |es| > 0 && es[0].editorId != editorId {
      var tail := es[1..];
      EntryForFirst(tail, editorId);
      if forall i :: 0 <= i < |es| ==> es[i].editorId != editorId {
        assert forall i :: 0 <= i < |tail| ==> tail[i] == es[i + 1];
      }
      forall i | 1 <= i < |es| && es[i].editorId == editorId && (forall j :: 0 <= j < i ==> es[j].editorId != editorId)
        ensures EntryFor(es, editorId) == es[i].gameIds
      {
        assert tail[i - 1] == es[i];
        forall j | 0 <= j < i - 1 ensures tail[j].editorId != editorId {
          assert tail[j] == es[j + 1];
        }
      }
    }
  }

  /** `isGamePublished`: the recorded flag, false for an id never recorded. */
  function IsGamePublished(gen: GameGen, id: Id): bool {
    Flag(gen.publish, id)
  }

  /** `getPublishedGameIds`. */
  function PublishedGameIds(gen: GameGen): (r: set<Id>)
    ensures forall id :: id in r <==> IsGamePublished(gen, id)
  {
    TrueKeys(gen.publish)
  }

  /** Putting entries for editors that are pairwise different and not yet in the map appends them. */
  lemma {:induction false} PutAllAppends(es: seq<EditorGames>, news: seq<EditorGames>)
    requires forall i, j :: 0 <= i < j < |news| ==> news[i].editorId != news[j].editorId
    requires forall i, j :: 0 <= i < |es| && 0 <= j < |news| ==> es[i].editorId != news[j].editorId
    ensures PutAll(es, news) == es + news
    decreases |news|
  {
    if |news| > 0 {
      PutAppends(es, news[0]);
      assert Put(es, news[0]) == es + [news[0]];
      PutAllAppends(es + [news[0]], news[1..]);
      assert es + [news[0]] + news[1..] == es + news;
    }
  }

  lemma {:induction false} PutAppends(es: seq<EditorGames>, e: EditorGames)
    requires forall i :: 0 <= i < |es| ==> es[i].editorId != e.editorId
    ensures Put(es, e) == es + [e]
    decreases |es|
  {
    if |es| > 0 {
      PutAppends(es[1..], e);
      assert [es[0]] + (es[1..] + [e]) == es + [e];
    }
  }

  /** The game ids of a map built by fresh puts are exactly the ids listed in its entries. */
  lemma AllGameIdsMember(gen: GameGen, gid: Id)
    ensures gid in AllGameIds(gen) <==> exists i :: 0 <= i < |gen.editorGames| && gid in gen.editorGames[i].gameIds
  {
    FlattenMember(EntryLists(gen.editorGames), gid);
  }
}
