/** BugReportGenerator: for every game, a sampled number of bug reports, each on a random platform,
    half of them (in expectation) linked to a patch drawn from the list of every patch id. */
module BugReportGenerator {
  import opened Common
  import opened Text
  import opened Faker
  import opened Rows

  /** The fifteen description templates of `generateBugDescription`, each as the literal text
      between its `%s` placeholders. Template 0 has three placeholders, the others two. */
  const BugTemplates: seq<seq<string>> := [
    ["Game crashes when entering ", ". Error code: ", ". This happens consistently on ", "."],
    ["Severe performance drop in ", " area. FPS drops from 60 to 15-20. Tested on ", "."],
    ["Audio completely cuts out during ", ". Requires game restart to fix. Platform: ", "."],
    ["Character gets stuck in ", " geometry. Cannot move or respawn. Affected area: ", "."],
    ["Quest '", "' cannot be completed. NPC doesn't spawn after ", ". Blocking progression."],
    ["Visual glitch in ", ". Textures appear distorted or missing. Reproducible on ", "."],
    ["Multiplayer desync issue during ", ". Players experience lag and disconnections on ", "."],
    ["Save file corruption after ", ". Lost ", " hours of progress. Critical issue."],
    ["Controls become unresponsive in ", ". Affects ", " functionality. Requires restart."],
    ["Memory leak detected during ", ". RAM usage climbs to ", " GB after extended play."],
    ["Collision detection broken in ", ". Can walk through walls near ", " area."],
    ["Achievement '", "' doesn't unlock despite meeting requirements. Tried ", " times."],
    ["UI elements overlapping in ", " menu. Text unreadable on ", " resolution."],
    ["Incorrect damage calculation for ", ". Should be ", " but shows different value."],
    ["Loading screen freeze when accessing ", ". Game becomes unresponsive for ", " minutes."]
  ]

  const GameAreas: seq<string> := [
    "the main menu", "inventory screen", "character customization", "multiplayer lobby",
    "final boss arena", "tutorial section", "cutscenes", "level 5", "the marketplace",
    "skill tree menu", "settings page", "quest log", "map screen", "crafting menu"
  ]

  const Values: seq<string> := [
    "0x8007045D", "multiple platforms", "high settings", "low graphics mode",
    "completing mission", "3-4", "1920x1080", "critical hits", "2-3", "V1.2.3"
  ]

  /** The templates have two or three placeholders. */
  lemma BugTemplatesShape()
    ensures |BugTemplates| == 15
    ensures |BugTemplates[0]| == 4
    ensures forall k :: 1 <= k < |BugTemplates| ==> |BugTemplates[k]| == 3
  {
  }

  /** A description made from template `k`: the template filled with `area1, value, area2`,
      a space, and Faker's sentence. */
  ghost predicate DescribedBy(d: string, k: int) {
    && 0 <= k < |BugTemplates| && 3 <= |BugTemplates[k]| <= 4
    && exists area1, value, area2, context ::
         && area1 in GameAreas && value in Values && area2 in GameAreas
         && d == Fill(BugTemplates[k], [area1, value, area2]) + " " + context
  }

  /** `generateBugDescription`: `nextInt(15)` picks the template, then two areas and one value are
      drawn and formatted as `(area1, value, area2)`, and a Faker sentence follows. */
  function BugDescription(s: Src): (r: (string, Src))
    ensures DescribedBy(r.0, Peek(s) % 15)
    ensures r.1.nextId == s.nextId
  {
    BugTemplatesShape();
    var (variant, s1) := NextInt(s, 15);
    var (area1, s2) := RandomElement(s1, GameAreas);
    var (area2, s3) := RandomElement(s2, GameAreas);
    var (value, s4) := RandomElement(s3, Values);
    var (context, s5) := NextWord(s4);
    (Fill(BugTemplates[variant], [area1, value, area2]) + " " + context, s5)
  }

  /** The fourteen two-placeholder templates never show the second area: the surplus argument
      of `String.format` is dropped. */
  lemma SecondAreaUnused(k: int, area1: string, value: string, area2: string)
    requires 1 <= k < |BugTemplates|
    ensures Fill(BugTemplates[k], [area1, value, area2]) == BugTemplates[k][0] + area1 + BugTemplates[k][1] + value + BugTemplates[k][2]
  {
    BugTemplatesShape();
    TwoPlaceholders(BugTemplates[k], area1, value, area2);
  }

  /** A template with two placeholders filled with three arguments shows the first two. */
  lemma TwoPlaceholders(t: seq<string>, a: string, b: string, c: string)
    requires |t| == 3
    ensures Fill(t, [a, b, c]) == t[0] + a + t[1] + b + t[2]
  {
    var args := [a, b, c];
    var tail := Fill(t[2..], args[2..]);
    assert |t[2..]| == 1 && tail == t[2];
    assert t[1..][1..] == t[2..] && args[1..][1..] == args[2..];
    assert Fill(t[1..], args[1..]) == t[1] + b + tail;
  }

  /** The patch link of one report: none when there are no patches; otherwise, with
      probability 50, an index drawn over the whole list. The draw is skipped, not consumed,
      when the list is empty. */
  function PatchLink(patchIds: seq<Id>, s: Src): (r: (Option<Id>, Src))
    ensures r.0.Some? ==> r.0.value in patchIds
    ensures |patchIds| == 0 ==> r.0 == None && r.1 == s
    ensures |patchIds| > 0 ==> (r.0.Some? <==> Peek(s) % 100 < 50)
    ensures r.1.nextId == s.nextId
  {
    if |patchIds| == 0 then (None, s)
    else
      var (linked, s1) := RandomBool(s, 50);
      if linked then
        var (k, s2) := NextInt(s1, |patchIds|);
        (Some(patchIds[k]), s2)
      else (None, s1)
  }

  /** Any patch id of the list can be attached, whatever game the patch belongs to: the
      index is drawn over every patch, not over the patches of the report's game. */
  lemma PatchLinkAttains(patchIds: seq<Id>, k: int, s: Src)
    requires 0 <= k < |patchIds|
    ensures PatchLink(patchIds, s.(draws := [0, k] + s.draws)).0 == Some(patchIds[k])
  {
    var s0 := s.(draws := [0, k] + s.draws);
    var s1 := Consume(s0);
    assert s1.draws == [k] + s.draws;
    NextIntAttains(s, |patchIds|, k);
  }

  /** One iteration of the loop in `generateBugReportsForGame`. */
  function GenerateBugReport(gameId: Id, patchIds: seq<Id>, s: Src): (r: (BugReport, Src))
    ensures r.0.gameId == gameId
    ensures r.0.patchId.Some? ==> r.0.patchId.value in patchIds
    ensures |patchIds| == 0 ==> r.0.patchId == None
    ensures exists k :: DescribedBy(r.0.description, k)
    ensures r.1.nextId == s.nextId
  {
    var (patchId, s1) := PatchLink(patchIds, s);
    var (platform, s2) := RandomElement(s1, Platforms);
    var (description, s3) := BugDescription(s2);
    (BugReport(gameId, patchId, description, platform), s3)
  }

  /** What every report of a game satisfies. */
  ghost predicate ReportOk(b: BugReport, gameId: Id, patchIds: seq<Id>) {
    && b.gameId == gameId
    && (b.patchId.Some? ==> b.patchId.value in patchIds)
    && exists k :: DescribedBy(b.description, k)
  }

  /** `generateBugReportsForGame(gameId, patchIds, numReports)`. */
  method GenerateBugReportsForGame(gameId: Id, patchIds: seq<Id>, n: int, s: Src)
    returns (reports: seq<BugReport>, s': Src)
    ensures |reports| == Clamp0(n)
    ensures forall k :: 0 <= k < |reports| ==> ReportOk(reports[k], gameId, patchIds)
    ensures |patchIds| == 0 ==> forall k :: 0 <= k < |reports| ==> reports[k].patchId == None
    ensures s'.nextId == s.nextId
  {
    reports, s' := [], s;
    var i := 0;
    while i < n
      invariant 0 <= i <= Clamp0(n)
      invariant |reports| == i && s'.nextId == s.nextId
      invariant forall k :: 0 <= k < i ==> ReportOk(reports[k], gameId, patchIds)
      invariant |patchIds| == 0 ==> forall k :: 0 <= k < i ==> reports[k].patchId == None
    {
      var (b, s1) := GenerateBugReport(gameId, patchIds, s');
      reports, s' := reports + [b], s1;
      i := i + 1;
    }
  }

  /** `generateBugReports(gameIds, patchIds)`: for each game in order a count drawn from
      `[bugMin, bugMax]` and that many reports. One batch per game; no UUID is consumed, the
      database assigns the report keys. */
  method GenerateBugReports(cfg: Config, gameIds: seq<Id>, patchIds: seq<Id>, s: Src)
    returns (batches: seq<seq<BugReport>>, s': Src)
    requires cfg.Valid()
    ensures |batches| == |gameIds|
    ensures SizesIn(batches, cfg.bugMin, cfg.bugMax)
    ensures forall i, k :: 0 <= i < |batches| && 0 <= k < |batches[i]| ==> ReportOk(batches[i][k], gameIds[i], patchIds)
    ensures s'.nextId == s.nextId
  {
    batches, s' := [], s;
    var i := 0;
    while i < |gameIds|
      invariant 0 <= i <= |gameIds|
      invariant |batches| == i && s'.nextId == s.nextId
      invariant forall j :: 0 <= j < i ==> Clamp0(cfg.bugMin) <= |batches[j]| <= Clamp0(cfg.bugMax)
      invariant forall j, k :: 0 <= j < i && 0 <= k < |batches[j]| ==> ReportOk(batches[j][k], gameIds[j], patchIds)
    {
      var (n, s1) := RandomInt(s', cfg.bugMin, cfg.bugMax);
      Clamp0Monotone(cfg.bugMin, n);
      Clamp0Monotone(n, cfg.bugMax);
      var batch, s2 := GenerateBugReportsForGame(gameIds[i], patchIds, n, s1);
      batches, s' := batches + [batch], s2;
      i := i + 1;
    }
  }
}
