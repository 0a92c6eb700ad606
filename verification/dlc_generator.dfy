/** DLCGenerator: for every game listed in `editorGamesMap`, a sampled number of DLCs that carry
    the editor the game is listed under, plus the list of every DLC id and the DLC publish map. */
module DlcGenerator {
  import opened Common
  import opened Text
  import opened Faker
  import opened Rows
  import opened PublishMap
  import opened GameGenerator

  /** What fills the variable part of a name template. */
  datatype Slot = NoSlot | FakerSlot | AdjectiveSlot

  /** A name template: fixed text around at most one variable part. */
  datatype NameTemplate = NameTemplate(prefix: string, slot: Slot, suffix: string)

  /** The adjectives of templates 1 and 9. */
  const Adjectives: seq<string> := ["Epic", "Ultimate", "Legendary", "Supreme", "Dark", "Golden",
                                    "Royal", "Ancient", "Mystic", "Shadow", "Divine"]

  /** The fifteen cases of the switch in `generateDLCName`, in case order. */
  const DlcTemplates: seq<NameTemplate> := [
    NameTemplate("Season Pass", NoSlot, ""),
    NameTemplate("", AdjectiveSlot, " Expansion"),
    NameTemplate("Deluxe Edition Content", NoSlot, ""),
    NameTemplate("", FakerSlot, " Pack"),
    NameTemplate("", FakerSlot, " DLC"),
    NameTemplate("", FakerSlot, " Collection"),
    NameTemplate("", FakerSlot, " Expansion Pack"),
    NameTemplate("Ultimate Edition Upgrade", NoSlot, ""),
    NameTemplate("", FakerSlot, " Skin Pack"),
    NameTemplate("Premium ", AdjectiveSlot, " Bundle"),
    NameTemplate("", FakerSlot, " Character Pack"),
    NameTemplate("Map Pack: ", FakerSlot, ""),
    NameTemplate("", FakerSlot, "'s Blessing"),
    NameTemplate("Weapon Pack: ", FakerSlot, ""),
    NameTemplate("Story Extension: ", FakerSlot, "")
  ]

  /** The name of the `default` branch, which no draw reaches. */
  const DefaultDlcName: string := "Expansion Pack"

  /** The text a template produces around the variable part it draws. */
  function FillTemplate(t: NameTemplate, s: Src): (r: (string, Src))
    ensures StartsWith(r.0, t.prefix) && EndsWith(r.0, t.suffix)
    ensures r.1.nextId == s.nextId
  {
    var (middle, s1) := match t.slot
      case NoSlot => ("", s)
      case FakerSlot => NextWord(s)
      case AdjectiveSlot => RandomElement(s, Adjectives);
    var name := t.prefix + middle + t.suffix;
    assert name[..|t.prefix|] == t.prefix;
    assert name[|name| - |t.suffix|..] == t.suffix;
    (name, s1)
  }

  /** `generateDLCName`: `nextInt(15)` selects the template. The variant always has its own case,
      so the name is never the default one and always carries its template's fixed text. */
  function DlcName(s: Src): (r: (string, Src))
    ensures var v := Peek(s) % 15;
            0 <= v < |DlcTemplates| && StartsWith(r.0, DlcTemplates[v].prefix) && EndsWith(r.0, DlcTemplates[v].suffix)
    ensures r.1.nextId == s.nextId
  {
    var (variant, s1) := NextInt(s, 15);
    if 0 <= variant < |DlcTemplates| then FillTemplate(DlcTemplates[variant], s1)
    else (DefaultDlcName, s1)
  }

  /** Every template has fixed text, so no DLC name is empty, whatever Faker returns. */
  lemma DlcNameNotEmpty(s: Src)
    ensures |DlcName(s).0| > 0
  {
    var v := Peek(s) % 15;
    assert forall i :: 0 <= i < |DlcTemplates| ==> |DlcTemplates[i].prefix| + |DlcTemplates[i].suffix| > 0;
    assert 0 <= v < |DlcTemplates|;
  }

  /** The generator object: every DLC id created, in order, and the publish map. */
  datatype DlcGen = DlcGen(allDlcIds: seq<Id>, publish: map<Id, bool>)

  const NewDlcGen := DlcGen([], map[])

  /** The (editor, game) pairs visited by the two nested loops of `generateDLCs`: the map's
      entries in iteration order, and each entry's games in list order. */
  function Owned(entries: seq<EditorGames>): (r: seq<(Id, Id)>)
    decreases |entries|
  {
    if |entries| == 0 then []
    else
      var e := entries[0];
      seq(|e.gameIds|, j requires 0 <= j < |e.gameIds| => (e.editorId, e.gameIds[j])) + Owned(entries[1..])
  }

  /** A pair is visited exactly when its game is listed under its editor. */
  lemma {:induction false} OwnedMember(entries: seq<EditorGames>, editorId: Id, gameId: Id)
    ensures (editorId, gameId) in Owned(entries) <==>
            exists i :: 0 <= i < |entries| && entries[i].editorId == editorId && gameId in entries[i].gameIds
    decreases |entries|
  {
    if |entries| > 0 {
      var e := entries[0];
      var head := seq(|e.gameIds|, j requires 0 <= j < |e.gameIds| => (e.editorId, e.gameIds[j]));
      OwnedMember(entries[1..], editorId, gameId);
      assert (editorId, gameId) in head <==> e.editorId == editorId && gameId in e.gameIds by {
        if (editorId, gameId) in head {
          var j :| 0 <= j < |head| && head[j] == (editorId, gameId);
        }
        if e.editorId == editorId && gameId in e.gameIds {
          var j :| 0 <= j < |e.gameIds| && e.gameIds[j] == gameId;
          assert head[j] == (editorId, gameId);
        }
      }
      if exists i :: 0 <= i < |entries[1..]| && entries[1..][i].editorId == editorId && gameId in entries[1..][i].gameIds {
        var i :| 0 <= i < |entries[1..]| && entries[1..][i].editorId == editorId && gameId in entries[1..][i].gameIds;
        assert entries[i + 1] == entries[1..][i];
      }
      if exists i :: 0 <= i < |entries| && entries[i].editorId == editorId && gameId in entries[i].gameIds {
        var i :| 0 <= i < |entries| && entries[i].editorId == editorId && gameId in entries[i].gameIds;
        if i > 0 {
          assert entries[1..][i - 1] == entries[i];
        }
      }
    }
  }

  /** What every generated DLC satisfies: price in cents from 2.99 to 29.99, version in tenths
      from 1.0 to 5.0, and the publish draw's two extremes. */
  predicate DlcOk(d: Dlc, publishPct: int) {
    && 299 <= d.price <= 2999
    && 10 <= d.version <= 50
    && (publishPct >= 100 ==> d.isPublish)
    && (publishPct <= 0 ==> !d.isPublish)
  }

  /** One iteration of `generateDLCsForGame`. */
  method GenerateDlc(gameId: Id, editorId: Id, cfg: Config, s: Src) returns (d: Dlc, s': Src)
    ensures d.id == s.nextId && s'.nextId == s.nextId + 1
    ensures d.gameId == gameId && d.editorId == editorId
    ensures DlcOk(d, cfg.publishPct)
  {
    var (id, s1) := FreshId(s);
    var (name, s2) := DlcName(s1);
    var (price, s3) := RoundedDouble(s2, 299, 2999);
    var (version, s4) := RoundedDouble(s3, 10, 50);
    var (isPublish, s5) := RandomBool(s4, cfg.publishPct);
    d := Dlc(id, gameId, editorId, name, price, version, isPublish);
    s' := s5;
  }

  /** `generateDLCsForGame(gameId, editorId, numDlcs)`: `numDlcs` DLCs with consecutive fresh ids. */
  method GenerateDlcsForGame(gameId: Id, editorId: Id, n: int, cfg: Config, s: Src) returns (dlcs: seq<Dlc>, s': Src)
    ensures |dlcs| == Clamp0(n)
    ensures forall k :: 0 <= k < |dlcs| ==> dlcs[k].id == s.nextId + k
    ensures s'.nextId == s.nextId + Clamp0(n)
    ensures forall k :: 0 <= k < |dlcs| ==> dlcs[k].gameId == gameId && dlcs[k].editorId == editorId && DlcOk(dlcs[k], cfg.publishPct)
  {
    dlcs, s' := [], s;
    var i := 0;
    while i < n
      invariant 0 <= i <= Clamp0(n)
      invariant |dlcs| == i && s'.nextId == s.nextId + i
      invariant forall k :: 0 <= k < i ==> dlcs[k].id == s.nextId + k
      invariant forall k :: 0 <= k < i ==> dlcs[k].gameId == gameId && dlcs[k].editorId == editorId && DlcOk(dlcs[k], cfg.publishPct)
    {
      var d;
      d, s' := GenerateDlc(gameId, editorId, cfg, s');
      dlcs := dlcs + [d];
      i := i + 1;
    }
  }

  function DlcIds(ds: seq<Dlc>): (r: seq<Id>)
    ensures |r| == |ds| && forall i :: 0 <= i < |ds| ==> r[i] == ds[i].id
  {
    seq(|ds|, i requires 0 <= i < |ds| => ds[i].id)
  }

  /** The `(id, isPublish)` pairs put into `dlcPublishStatus`, in generation order. */
  function DlcFlags(ds: seq<Dlc>): (r: seq<(Id, bool)>)
    ensures |r| == |ds| && forall i :: 0 <= i < |ds| ==> r[i] == (ds[i].id, ds[i].isPublish)
  {
    seq(|ds|, i requires 0 <= i < |ds| => (ds[i].id, ds[i].isPublish))
  }

  /** `generateDLCs(editorGamesMap)`: for each visited (editor, game) pair a count drawn from
      `[dlcMin, dlcMax]`; a positive count produces that many DLCs for the game under that editor,
      any other count none. One batch per pair. */
  method GenerateDlcs(gen: DlcGen, cfg: Config, entries: seq<EditorGames>, s: Src)
    returns (gen': DlcGen, batches: seq<seq<Dlc>>, s': Src)
    requires cfg.Valid()
    ensures |batches| == |Owned(entries)|
    ensures SizesIn(batches, cfg.dlcMin, cfg.dlcMax)
    ensures forall i, k :: 0 <= i < |batches| && 0 <= k < |batches[i]| ==>
              && batches[i][k].editorId == Owned(entries)[i].0
              && batches[i][k].gameId == Owned(entries)[i].1
              && DlcOk(batches[i][k], cfg.publishPct)
    ensures forall k :: 0 <= k < |Flatten(batches)| ==> Flatten(batches)[k].id == s.nextId + k
    ensures s'.nextId == s.nextId + |Flatten(batches)|
    ensures gen'.allDlcIds == gen.allDlcIds + DlcIds(Flatten(batches))
    ensures forall d :: d in Flatten(batches) ==> IsDlcPublished(gen', d.id) == d.isPublish
    ensures forall id: Id :: id < s.nextId ==> IsDlcPublished(gen', id) == IsDlcPublished(gen, id)
  {
    var pairs := Owned(entries);
    batches, s' := [], s;
    var i := 0;
    while i < |pairs|
      invariant 0 <= i <= |pairs|
      invariant |batches| == i
      invariant forall j :: 0 <= j < i ==> Clamp0(cfg.dlcMin) <= |batches[j]| <= Clamp0(cfg.dlcMax)
      invariant forall j, k :: 0 <= j < i && 0 <= k < |batches[j]| ==>
                  && batches[j][k].editorId == pairs[j].0
                  && batches[j][k].gameId == pairs[j].1
                  && DlcOk(batches[j][k], cfg.publishPct)
      invariant forall k :: 0 <= k < |Flatten(batches)| ==> Flatten(batches)[k].id == s.nextId + k
      invariant s'.nextId == s.nextId + |Flatten(batches)|
    {
      var (editorId, gameId) := pairs[i];
      var (n, s1) := RandomInt(s', cfg.dlcMin, cfg.dlcMax);
      Clamp0Monotone(cfg.dlcMin, n);
      Clamp0Monotone(n, cfg.dlcMax);
      assert s1.nextId == s'.nextId;
      var batch: seq<Dlc> := [];
      var s2 := s1;
      if n > 0 {
        batch, s2 := GenerateDlcsForGame(gameId, editorId, n, cfg, s1);
      }
      AppendDlcBatch(batches, batch, s.nextId);
      batches, s' := batches + [batch], s2;
      i := i + 1;
    }
    var dlcs := Flatten(batches);
    gen' := DlcGen(gen.allDlcIds + DlcIds(dlcs), PutFlags(gen.publish, DlcFlags(dlcs)));
    forall d | d in dlcs
      ensures IsDlcPublished(gen', d.id) == d.isPublish
    {
      ConsecutiveReadBack(gen.publish, DlcFlags(dlcs), s.nextId, d.id);
      var k :| 0 <= k < |dlcs| && dlcs[k] == d;
      assert DlcFlags(dlcs)[k] == (d.id, d.isPublish);
    }
    forall id: Id | id < s.nextId
      ensures IsDlcPublished(gen', id) == IsDlcPublished(gen, id)
    {
      ConsecutiveReadBack(gen.publish, DlcFlags(dlcs), s.nextId, id);
    }
  }

  /** Appending a batch whose ids continue the count keeps the ids consecutive. */
  lemma AppendDlcBatch(batches: seq<seq<Dlc>>, batch: seq<Dlc>, base: nat)
    requires forall k :: 0 <= k < |Flatten(batches)| ==> Flatten(batches)[k].id == base + k
    requires forall k :: 0 <= k < |batch| ==> batch[k].id == base + |Flatten(batches)| + k
    ensures Flatten(batches + [batch]) == Flatten(batches) + batch
    ensures forall k :: 0 <= k < |Flatten(batches + [batch])| ==> Flatten(batches + [batch])[k].id == base + k
  {
    FlattenAppend(batches, batch);
    var f := Flatten(batches);
    forall k | |f| <= k < |f + batch|
      ensures (f + batch)[k] == batch[k - |f|]
    {
    }
  }

  /** `isDLCPublished`: the recorded flag, false for an id never recorded. */
  function IsDlcPublished(gen: DlcGen, id: Id): bool {
    Flag(gen.publish, id)
  }

  /** `getPublishedDLCIds`. */
  function PublishedDlcIds(gen: DlcGen): (r: set<Id>)
    ensures forall id :: id in r <==> IsDlcPublished(gen, id)
  {
    TrueKeys(gen.publish)
  }

  /** `getAllDlcIds`. */
  function AllDlcIds(gen: DlcGen): seq<Id> {
    gen.allDlcIds
  }
}
