/** PatchGenerator: for every game, a sampled number of patches whose versions form a chain from
    1.0 upwards, plus the list of every patch id and the patch publish map.
    Versions are counted in tenths, so 1.0 is 10 and an increment of 0.1 to 1.0 is 1 to 10. */
module PatchGenerator {
  import opened Common
  import opened Text
  import opened Faker
  import opened Rows
  import opened PublishMap

  /** The version every game's first patch starts from (1.0). */
  const InitialVersion: int := 10

  /** The ten comments of `generatePatchComment`, in case order. */
  const PatchComments: seq<string> := [
    "Critical bug fixes and performance improvements",
    "Major update with new features and content",
    "Stability improvements and crash fixes",
    "Balance updates and gameplay adjustments",
    "Security patch and minor bug fixes",
    "Performance optimization for better FPS",
    "Fixed issues reported by community",
    "Updated graphics and UI improvements",
    "Multiplayer fixes and network optimization",
    "Seasonal update with new content"
  ]

  /** The modification templates, each as the text before and after its one `%s`. */
  const ModificationTypes: seq<seq<string>> := [
    ["Fixed crash when ", ""],
    ["Improved performance in ", ""],
    ["Added new ", " feature"],
    ["Balanced ", " mechanics"],
    ["Fixed audio glitches in ", ""],
    ["Updated ", " textures"],
    ["Optimized ", " loading times"],
    ["Fixed multiplayer issue with ", ""],
    ["Adjusted ", " difficulty"],
    ["Enhanced ", " visual effects"]
  ]

  const GameElements: seq<string> := [
    "main menu", "inventory system", "combat system", "character creation",
    "boss fights", "cutscenes", "level transitions", "save system",
    "skill tree", "quest log", "map interface", "settings menu",
    "multiplayer lobby", "chat system", "achievements", "tutorials"
  ]

  /** `generatePatchComment`: `nextInt(10)` picks one of the ten fixed comments; the Faker
      sentence of the `default` branch is never reached. */
  function PatchComment(s: Src): (r: (string, Src))
    ensures r.0 in PatchComments
    ensures r.0 == PatchComments[Peek(s) % 10]
    ensures r.1 == Consume(s)
  {
    var (variant, s1) := NextInt(s, 10);
    if 0 <= variant < |PatchComments| then (PatchComments[variant], s1)
    else NextWord(s1)
  }

  /** A string whose last character is visible, i.e. not removed by `trim`. */
  predicate VisibleEnd(s: string) {
    |s| > 0 && s[|s| - 1] > ' '
  }

  /** One modification line: "- " and a template filled with a game element. */
  function ModificationLine(t: seq<string>, element: string): string
    requires |t| == 2
  {
    "- " + Fill(t, [element])
  }

  /** A well-formed modification line: it starts with "- ", has no newline, and ends visibly. */
  predicate LineOk(l: string) {
    StartsWith(l, "- ") && NoNewline(l) && VisibleEnd(l)
  }

  /** A template with one placeholder and no newline, ending with visible text or with the placeholder. */
  predicate TemplateOk(t: seq<string>) {
    |t| == 2 && '\n' !in t[0] && '\n' !in t[1] && (VisibleEnd(t[1]) || t[1] == "")
  }

  predicate ElementOk(e: string) {
    '\n' !in e && VisibleEnd(e)
  }

  /** Every modification template has one placeholder, no newline, and ends visibly or with
      the placeholder. */
  lemma ModificationTypesOk()
    ensures forall i :: 0 <= i < |ModificationTypes| ==> TemplateOk(ModificationTypes[i])
  {
    TemplatesOkLow();
    TemplatesOkHigh();
  }

  lemma TemplatesOkLow()
    ensures forall i :: 0 <= i < 5 ==> TemplateOk(ModificationTypes[i])
  {
    assert TemplateOk(ModificationTypes[0]);
    assert TemplateOk(ModificationTypes[1]);
    assert TemplateOk(ModificationTypes[2]);
    assert TemplateOk(ModificationTypes[3]);
    assert TemplateOk(ModificationTypes[4]);
  }

  lemma TemplatesOkHigh()
    ensures forall i :: 5 <= i < 10 ==> TemplateOk(ModificationTypes[i])
  {
    assert TemplateOk(ModificationTypes[5]);
    assert TemplateOk(ModificationTypes[6]);
    assert TemplateOk(ModificationTypes[7]);
    assert TemplateOk(ModificationTypes[8]);
    assert TemplateOk(ModificationTypes[9]);
  }

  /** Every game element has no newline and ends with a visible character. */
  lemma GameElementsOk()
    ensures forall i :: 0 <= i < |GameElements| ==> ElementOk(GameElements[i])
  {
    ElementsOkLow();
    ElementsOkHigh();
  }

  lemma ElementsOkLow()
    ensures forall i :: 0 <= i < 8 ==> ElementOk(GameElements[i])
  {
    assert ElementOk(GameElements[0]);
    assert ElementOk(GameElements[1]);
    assert ElementOk(GameElements[2]);
    assert ElementOk(GameElements[3]);
    assert ElementOk(GameElements[4]);
    assert ElementOk(GameElements[5]);
    assert ElementOk(GameElements[6]);
    assert ElementOk(GameElements[7]);
  }

  lemma ElementsOkHigh()
    ensures forall i :: 8 <= i < 16 ==> ElementOk(GameElements[i])
  {
    assert ElementOk(GameElements[8]);
    assert ElementOk(GameElements[9]);
    assert ElementOk(GameElements[10]);
    assert ElementOk(GameElements[11]);
    assert ElementOk(GameElements[12]);
    assert ElementOk(GameElements[13]);
    assert ElementOk(GameElements[14]);
    assert ElementOk(GameElements[15]);
  }

  lemma ModificationLineShape(t: seq<string>, element: string)
    requires TemplateOk(t) && ElementOk(element)
    ensures LineOk(ModificationLine(t, element))
  {
    var line := ModificationLine(t, element);
    assert line[..2] == "- ";
    assert NoNewline(t[0]) && NoNewline(t[1]) && NoNewline(element);
    FillNoNewline(t, [element]);
    var c := if |t[1]| > 0 then t[1][|t[1]| - 1] else element[|element| - 1];
    FillEndsWith(t, [element], c);
    var f := Fill(t, [element]);
    assert line[|line| - 1] == f[|f| - 1];
  }

  /** The `numModifications` lines drawn by the loop of `generatePatchModifications`. */
  function ModificationLines(n: int, s: Src): (r: (seq<string>, Src))
    ensures |r.0| == Clamp0(n)
    ensures forall i :: 0 <= i < |r.0| ==> LineOk(r.0[i])
    ensures r.1.nextId == s.nextId
    decreases n
  {
    if n <= 0 then ([], s)
    else
      var (t, s1) := RandomElement(s, ModificationTypes);
      var (e, s2) := RandomElement(s1, GameElements);
      ModificationTypesOk();
      GameElementsOk();
      ModificationLineShape(t, e);
      var (rest, s3) := ModificationLines(n - 1, s2);
      ([ModificationLine(t, e)] + rest, s3)
  }

  /** What the `StringBuilder` holds after the loop: every line followed by a newline. */
  function Terminated(lines: seq<string>): string
    decreases |lines|
  {
    if |lines| == 0 then "" else lines[0] + "\n" + Terminated(lines[1..])
  }

  lemma {:induction false} TerminatedIsJoinedPlusNewline(lines: seq<string>)
    requires |lines| >= 1
    ensures Terminated(lines) == JoinLines(lines) + "\n"
    decreases |lines|
  {
    if |lines| > 1 {
      TerminatedIsJoinedPlusNewline(lines[1..]);
    }
  }

  /** Joined lines start with the first line's first character and end with the last line's last one. */
  lemma {:induction false} JoinLinesEnds(lines: seq<string>)
    requires |lines| >= 1 && forall i :: 0 <= i < |lines| ==> |lines[i]| > 0
    ensures var j := JoinLines(lines);
            |j| > 0 && j[0] == lines[0][0] && j[|j| - 1] == lines[|lines| - 1][|lines[|lines| - 1]| - 1]
    decreases |lines|
  {
    if |lines| > 1 {
      JoinLinesEnds(lines[1..]);
    }
  }

  /** Every line starts with "- " and holds no newline. */
  predicate DashLines(lines: seq<string>)
    decreases |lines|
  {
    |lines| == 0 || (StartsWith(lines[0], "- ") && NoNewline(lines[0]) && DashLines(lines[1..]))
  }

  lemma {:induction false} DashLinesIff(lines: seq<string>)
    ensures DashLines(lines) <==> forall i :: 0 <= i < |lines| ==> StartsWith(lines[i], "- ") && NoNewline(lines[i])
    decreases |lines|
  {
    if |lines| > 0 {
      DashLinesIff(lines[1..]);
      assert forall i :: 0 < i < |lines| ==> lines[i] == lines[1..][i - 1];
    }
  }

  /** What `generatePatchModifications` promises: between three and eight lines, each starting
      with "- ", separated by single newlines, with no newline after the last. */
  predicate ModificationsOk(m: string) {
    var lines := SplitLines(m);
    && 3 <= |lines| <= 8
    && DashLines(lines)
    && JoinLines(lines) == m
  }

  /** `generatePatchModifications`: `randomInt(3, 8)` lines, then `trim`, which removes exactly the
      final newline because every line starts with '-' and ends with a visible character. */
  function PatchModifications(s: Src): (r: (string, Src))
    ensures ModificationsOk(r.0)
    ensures r.1.nextId == s.nextId
  {
    var (n, s1) := RandomInt(s, 3, 8);
    var (lines, s2) := ModificationLines(n, s1);
    var m := Trim(Terminated(lines));
    ModificationsShape(lines);
    (m, s2)
  }

  lemma ModificationsShape(lines: seq<string>)
    requires 3 <= |lines| <= 8
    requires forall i :: 0 <= i < |lines| ==> LineOk(lines[i])
    ensures ModificationsOk(Trim(Terminated(lines)))
  {
    assert forall i :: 0 <= i < |lines| ==> |lines[i]| > 0;
    assert lines[0][0] == lines[0][..2][0] == '-';
    TrimmedIsJoined(lines);
    SplitJoinLines(lines);
    DashLinesIff(lines);
  }

  /** `trim` removes only the final newline when the first line starts and the last line ends
      with a visible character. */
  lemma TrimmedIsJoined(lines: seq<string>)
    requires |lines| >= 1 && forall i :: 0 <= i < |lines| ==> |lines[i]| > 0
    requires lines[0][0] > ' ' && VisibleEnd(lines[|lines| - 1])
    ensures Trim(Terminated(lines)) == JoinLines(lines)
  {
    TerminatedIsJoinedPlusNewline(lines);
    JoinLinesEnds(lines);
    TrimDropsFinalNewline(JoinLines(lines));
  }

  /** Each patch's old version is the previous patch's new version, the first starts at 1.0,
      and every step adds between 0.1 and 1.0. */
  predicate VersionChain(ps: seq<Patch>) {
    && (|ps| > 0 ==> ps[0].oldVersion == InitialVersion)
    && (forall i :: 0 < i < |ps| ==> ps[i].oldVersion == ps[i - 1].newVersion)
    && (forall i :: 0 <= i < |ps| ==> 1 <= ps[i].newVersion - ps[i].oldVersion <= 10)
  }

  /** Along a chain the new versions strictly increase, and the i-th one (from 0) lies between
      1.0 + 0.1·(i+1) and 1.0 + 1.0·(i+1). */
  lemma {:induction false} ChainIncreasing(ps: seq<Patch>)
    requires VersionChain(ps)
    ensures forall i, j :: 0 <= i < j < |ps| ==> ps[i].newVersion < ps[j].newVersion
    ensures forall i :: 0 <= i < |ps| ==> InitialVersion + (i + 1) <= ps[i].newVersion <= InitialVersion + 10 * (i + 1)
    decreases |ps|
  {
    if |ps| > 0 {
      var init := ps[..|ps| - 1];
      assert VersionChain(init);
      ChainIncreasing(init);
      var last := |ps| - 1;
      if last > 0 {
        assert ps[last - 1] == init[last - 1];
      }
      forall i, j | 0 <= i < j < |ps| ensures ps[i].newVersion < ps[j].newVersion {
        if j < last {
          assert ps[i] == init[i] && ps[j] == init[j];
        } else if i < last - 1 {
          assert ps[i] == init[i] && ps[last - 1] == init[last - 1];
        }
      }
      forall i | 0 <= i < |ps| ensures InitialVersion + (i + 1) <= ps[i].newVersion <= InitialVersion + 10 * (i + 1) {
        if i < last {
          assert ps[i] == init[i];
        }
      }
    }
  }

  /** What every generated patch of a game satisfies besides the chain: it belongs to that game,
      and a publish percentage of 100 or more (0 or less) always (never) publishes it. */
  predicate PatchOk(p: Patch, gameId: Id, publishPct: int) {
    && p.gameId == gameId
    && (publishPct >= 100 ==> p.isPublish)
    && (publishPct <= 0 ==> !p.isPublish)
  }

  /** One iteration of `generatePatchesForGame`, starting from the current version. */
  method GeneratePatch(gameId: Id, current: int, cfg: Config, s: Src) returns (p: Patch, s': Src)
    ensures p.id == s.nextId && s'.nextId == s.nextId + 1
    ensures p.oldVersion == current && 1 <= p.newVersion - p.oldVersion <= 10
    ensures PatchOk(p, gameId, cfg.publishPct)
    ensures p.comment in PatchComments && ModificationsOk(p.modifications)
  {
    var (id, s1) := FreshId(s);
    var (isPatchOfGame, s2) := RandomBool(s1, 90);
    var (platform, s3) := RandomElement(s2, Platforms);
    var (increment, s4) := RoundedDouble(s3, 1, 10);
    var (comment, s5) := PatchComment(s4);
    var (modifications, s6) := PatchModifications(s5);
    var (isPublish, s7) := RandomBool(s6, cfg.publishPct);
    p := Patch(id, isPatchOfGame, gameId, platform, current, current + increment, comment, modifications, isPublish);
    s' := s7;
  }

  /** `generatePatchesForGame(gameId, numPatches)`: the version chain, kept in `currentVersion`. */
  method GeneratePatchesForGame(gameId: Id, n: int, cfg: Config, s: Src) returns (patches: seq<Patch>, s': Src)
    ensures |patches| == Clamp0(n)
    ensures forall k :: 0 <= k < |patches| ==> patches[k].id == s.nextId + k
    ensures s'.nextId == s.nextId + Clamp0(n)
    ensures VersionChain(patches)
    ensures forall k :: 0 <= k < |patches| ==> PatchOk(patches[k], gameId, cfg.publishPct)
  {
    patches, s' := [], s;
    var current := InitialVersion;
    var i := 0;
    while i < n
      invariant 0 <= i <= Clamp0(n)
      invariant |patches| == i && s'.nextId == s.nextId + i
      invariant forall k :: 0 <= k < i ==> patches[k].id == s.nextId + k
      invariant VersionChain(patches)
      invariant current == if i == 0 then InitialVersion else patches[i - 1].newVersion
      invariant forall k :: 0 <= k < i ==> PatchOk(patches[k], gameId, cfg.publishPct)
    {
      var p;
      p, s' := GeneratePatch(gameId, current, cfg, s');
      ExtendChain(patches, p);
      patches := patches + [p];
      current := p.newVersion;
      i := i + 1;
    }
  }

  /** A patch that starts from the chain's last new version and adds 0.1 to 1.0 extends the chain. */
  lemma ExtendChain(ps: seq<Patch>, p: Patch)
    requires VersionChain(ps)
    requires p.oldVersion == if |ps| == 0 then InitialVersion else ps[|ps| - 1].newVersion
    requires 1 <= p.newVersion - p.oldVersion <= 10
    ensures VersionChain(ps + [p])
  {
    var qs := ps + [p];
    assert forall i :: 0 <= i < |ps| ==> qs[i] == ps[i];
  }

  /** The generator object: every patch id created, in order, and the publish map. */
  datatype PatchGen = PatchGen(allPatchIds: seq<Id>, publish: map<Id, bool>)

  const NewPatchGen := PatchGen([], map[])

  function PatchIds(ps: seq<Patch>): (r: seq<Id>)
    ensures |r| == |ps| && forall i :: 0 <= i < |ps| ==> r[i] == ps[i].id
  {
    seq(|ps|, i requires 0 <= i < |ps| => ps[i].id)
  }

  /** The `(id, isPublish)` pairs put into `patchPublishStatus`, in generation order. */
  function PatchFlags(ps: seq<Patch>): (r: seq<(Id, bool)>)
    ensures |r| == |ps| && forall i :: 0 <= i < |ps| ==> r[i] == (ps[i].id, ps[i].isPublish)
  {
    seq(|ps|, i requires 0 <= i < |ps| => (ps[i].id, ps[i].isPublish))
  }

  /** `generatePatches(gameIds)`: for each game in order a count drawn from
      `[patchesMin, patchesMax]` and that many chained patches. One batch per game; every
      patch id is appended to the id list and its publish flag put into the map. */
  method GeneratePatches(gen: PatchGen, cfg: Config, gameIds: seq<Id>, s: Src)
    returns (gen': PatchGen, batches: seq<seq<Patch>>, s': Src)
    requires cfg.Valid()
    ensures |batches| == |gameIds|
    ensures SizesIn(batches, cfg.patchesMin, cfg.patchesMax)
    ensures forall i :: 0 <= i < |batches| ==> VersionChain(batches[i])
    ensures forall i, k :: 0 <= i < |batches| && 0 <= k < |batches[i]| ==> PatchOk(batches[i][k], gameIds[i], cfg.publishPct)
    ensures forall k :: 0 <= k < |Flatten(batches)| ==> Flatten(batches)[k].id == s.nextId + k
    ensures s'.nextId == s.nextId + |Flatten(batches)|
    ensures gen'.allPatchIds == gen.allPatchIds + PatchIds(Flatten(batches))
    ensures forall p :: p in Flatten(batches) ==> IsPatchPublished(gen', p.id) == p.isPublish
    ensures forall id: Id :: id < s.nextId ==> IsPatchPublished(gen', id) == IsPatchPublished(gen, id)
  {
    batches, s' := PatchBatches(cfg, gameIds, s);
    var patches := Flatten(batches);
    gen' := PatchGen(gen.allPatchIds + PatchIds(patches), PutFlags(gen.publish, PatchFlags(patches)));
    PatchFlagsReadBack(gen.publish, patches, s.nextId);
  }

  /** The loop of `generatePatches`, one batch per game id. */
  method PatchBatches(cfg: Config, gameIds: seq<Id>, s: Src) returns (batches: seq<seq<Patch>>, s': Src)
    requires cfg.Valid()
    ensures |batches| == |gameIds|
    ensures SizesIn(batches, cfg.patchesMin, cfg.patchesMax)
    ensures forall i :: 0 <= i < |batches| ==> VersionChain(batches[i])
    ensures forall i, k :: 0 <= i < |batches| && 0 <= k < |batches[i]| ==> PatchOk(batches[i][k], gameIds[i], cfg.publishPct)
    ensures forall k :: 0 <= k < |Flatten(batches)| ==> Flatten(batches)[k].id == s.nextId + k
    ensures s'.nextId == s.nextId + |Flatten(batches)|
  {
    batches, s' := [], s;
    var i := 0;
    while i < |gameIds|
      invariant 0 <= i <= |gameIds|
      invariant |batches| == i
      invariant forall j :: 0 <= j < i ==> Clamp0(cfg.patchesMin) <= |batches[j]| <= Clamp0(cfg.patchesMax)
      invariant forall j :: 0 <= j < i ==> VersionChain(batches[j])
      invariant forall j, k :: 0 <= j < i && 0 <= k < |batches[j]| ==> PatchOk(batches[j][k], gameIds[j], cfg.publishPct)
      invariant forall k :: 0 <= k < |Flatten(batches)| ==> Flatten(batches)[k].id == s.nextId + k
      invariant s'.nextId == s.nextId + |Flatten(batches)|
    {
      var (n, s1) := RandomInt(s', cfg.patchesMin, cfg.patchesMax);
      Clamp0Monotone(cfg.patchesMin, n);
      Clamp0Monotone(n, cfg.patchesMax);
      assert s1.nextId == s'.nextId;
      var batch, s2 := GeneratePatchesForGame(gameIds[i], n, cfg, s1);
      AppendPatchBatch(batches, batch, s.nextId);
      AppendPatchBatchOk(batches, batch, gameIds, cfg.publishPct);
      batches, s' := batches + [batch], s2;
      i := i + 1;
    }
  }

  /** With ids handed out in a row from `base`, the publish map built from the patches reads
      back each patch's own flag and leaves every older id as it was. */
  lemma PatchFlagsReadBack(m: map<Id, bool>, patches: seq<Patch>, base: nat)
    requires forall k :: 0 <= k < |patches| ==> patches[k].id == base + k
    ensures forall p :: p in patches ==> Flag(PutFlags(m, PatchFlags(patches)), p.id) == p.isPublish
    ensures forall id: Id :: id < base ==> Flag(PutFlags(m, PatchFlags(patches)), id) == Flag(m, id)
  {
    forall p | p in patches
      ensures Flag(PutFlags(m, PatchFlags(patches)), p.id) == p.isPublish
    {
      ConsecutiveReadBack(m, PatchFlags(patches), base, p.id);
      var k :| 0 <= k < |patches| && patches[k] == p;
      assert PatchFlags(patches)[k] == (p.id, p.isPublish);
    }
    forall id: Id | id < base
      ensures Flag(PutFlags(m, PatchFlags(patches)), id) == Flag(m, id)
    {
      ConsecutiveReadBack(m, PatchFlags(patches), base, id);
    }
  }

  /** Appending the next game's batch keeps every batch a chain of that game's patches. */
  lemma AppendPatchBatchOk(batches: seq<seq<Patch>>, batch: seq<Patch>, gameIds: seq<Id>, pct: int)
    requires |batches| < |gameIds|
    requires forall j :: 0 <= j < |batches| ==> VersionChain(batches[j])
    requires forall j, k :: 0 <= j < |batches| && 0 <= k < |batches[j]| ==> PatchOk(batches[j][k], gameIds[j], pct)
    requires VersionChain(batch)
    requires forall k :: 0 <= k < |batch| ==> PatchOk(batch[k], gameIds[|batches|], pct)
    ensures forall j :: 0 <= j <= |batches| ==> VersionChain((batches + [batch])[j])
    ensures forall j, k :: 0 <= j <= |batches| && 0 <= k < |(batches + [batch])[j]| ==>
              PatchOk((batches + [batch])[j][k], gameIds[j], pct)
  {
    assert forall j :: 0 <= j < |batches| ==> (batches + [batch])[j] == batches[j];
  }

  /** Appending a batch whose ids continue the count keeps the ids consecutive. */
  lemma AppendPatchBatch(batches: seq<seq<Patch>>, batch: seq<Patch>, base: nat)
    requires forall k :: 0 <= k < |Flatten(batches)| ==> Flatten(batches)[k].id == base + k
    requires forall k :: 0 <= k < |batch| ==> batch[k].id == base + |Flatten(batches)| + k
    ensures Flatten(batches + [batch]) == Flatten(batches) + batch
    ensures forall k :: 0 <= k < |Flatten(batches + [batch])| ==> Flatten(batches + [batch])[k].id == base + k
  {
    FlattenAppend(batches, batch);
    var f := Flatten(batches);
    forall k | |f| <= k < |f + batch|
      ensures (f + batch)[k] == batch[k - |f|]
    {
    }
  }

  /** `isPatchPublished`: the recorded flag, false for an id never recorded. */
  function IsPatchPublished(gen: PatchGen, id: Id): bool {
    Flag(gen.publish, id)
  }

  /** `getPublishedPatchIds`. */
  function PublishedPatchIds(gen: PatchGen): (r: set<Id>)
    ensures forall id :: id in r <==> IsPatchPublished(gen, id)
  {
    TrueKeys(gen.publish)
  }

  /** `getAllPatchIds`. */
  function AllPatchIds(gen: PatchGen): seq<Id> {
    gen.allPatchIds
  }
}
