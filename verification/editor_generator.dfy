/** EditorGenerator: creates `numEditors` editors per call, each an enterprise with probability
    `enterprisePct`, and remembers every id it ever created. */
module EditorGenerator {
  import opened Common
  import opened Text
  import opened Faker
  import opened Rows

  /** The five company-name templates, indexed by `nextInt(5)`; the Faker part comes first. */
  const CompanySuffixes: seq<string> := [" Games", " Entertainment", " Studios", " Interactive", " Games"]

  const IndependentPrefix: string := "Independent game developer. "

  /** The generator object: its list of editor ids is appended to and never cleared. */
  datatype EditorGen = EditorGen(editorIds: seq<Id>)

  const NewEditorGen := EditorGen([])

  function TypeLiteral(isEnterprise: bool): string {
    if isEnterprise then "entreprise" else "particulier"
  }

  /** `generateCompanyName`: the variant drawn from `nextInt(5)` picks a suffix for one Faker name,
      so every name ends with one of the five suffixes and no default case is ever taken. */
  function CompanyName(s: Src): (r: (string, Src))
    ensures exists k :: 0 <= k < |CompanySuffixes| && EndsWith(r.0, CompanySuffixes[k])
    ensures r.1.nextId == s.nextId
  {
    var (variant, s1) := NextInt(s, |CompanySuffixes|);
    var (w, s2) := NextWord(s1);
    var name := w + CompanySuffixes[variant];
    assert name[|name| - |CompanySuffixes[variant]|..] == CompanySuffixes[variant];
    (name, s2)
  }

  /** `generateDescription`: catch phrase, sentence and slogan for a company; the fixed
      "Independent game developer. " opening, a sentence and a quote for an individual. */
  function Description(isEnterprise: bool, s: Src): (r: (string, Src))
    ensures !isEnterprise ==> StartsWith(r.0, IndependentPrefix)
    ensures r.1.nextId == s.nextId && r.1.draws == s.draws
  {
    if isEnterprise then
      var (w1, s1) := NextWord(s);
      var (w2, s2) := NextWord(s1);
      var (w3, s3) := NextWord(s2);
      (w1 + ". " + w2 + " " + w3, s3)
    else
      var (w1, s1) := NextWord(s);
      var (w2, s2) := NextWord(s1);
      var d := IndependentPrefix + w1 + " " + w2;
      assert d[..|IndependentPrefix|] == IndependentPrefix;
      (d, s2)
  }

  /** One iteration of the loop in `generateEditors`. */
  function GenerateEditor(cfg: Config, s: Src): (r: (Editor, Src))
    ensures r.0.id == s.nextId && r.1.nextId == s.nextId + 1
    ensures r.0.kind == "entreprise" || r.0.kind == "particulier"
    ensures r.0.kind == "entreprise" <==> Peek(s) % 100 < cfg.enterprisePct
    ensures r.0.kind == "entreprise" ==> exists k :: 0 <= k < |CompanySuffixes| && EndsWith(r.0.name, CompanySuffixes[k])
    ensures r.0.kind == "particulier" ==> StartsWith(r.0.description, IndependentPrefix)
    ensures r.0.kind == "particulier" && |s.words| > 0 ==> r.0.name == s.words[0]
  {
    var (id, s1) := FreshId(s);
    var (isEnterprise, s2) := RandomBool(s1, cfg.enterprisePct);
    assert Peek(s1) == Peek(s);
    var (name, s3) := if isEnterprise then CompanyName(s2) else NextWord(s2);
    var (password, s4) := NextWord(s3);
    var (description, s5) := Description(isEnterprise, s4);
    (Editor(id, name, password, TypeLiteral(isEnterprise), description), s5)
  }

  function GenerateEditorRows(cfg: Config, n: int, s: Src): (r: (seq<Editor>, Src))
    ensures |r.0| == Clamp0(n)
    ensures forall i :: 0 <= i < |r.0| ==> r.0[i].id == s.nextId + i
    ensures r.1.nextId == s.nextId + Clamp0(n)
    ensures forall e :: e in r.0 ==> e.kind == "entreprise" || e.kind == "particulier"
    decreases n
  {
    if n <= 0 then ([], s)
    else
      var (e, s1) := GenerateEditor(cfg, s);
      var (rest, s2) := GenerateEditorRows(cfg, n - 1, s1);
      ([e] + rest, s2)
  }

  function EditorIds(rows: seq<Editor>): (r: seq<Id>)
    ensures |r| == |rows| && forall i :: 0 <= i < |rows| ==> r[i] == rows[i].id
  {
    seq(|rows|, i requires 0 <= i < |rows| => rows[i].id)
  }

  datatype EditorsOut = EditorsOut(gen: EditorGen, rows: seq<Editor>, src: Src)

  /** `generateEditors`: inserts `numEditors` new editors with fresh consecutive ids and returns
      the generator's whole id list, which keeps the ids of every earlier call in front. */
  function GenerateEditors(gen: EditorGen, cfg: Config, s: Src): (r: EditorsOut)
    ensures |r.rows| == Clamp0(cfg.numEditors)
    ensures forall i :: 0 <= i < |r.rows| ==> r.rows[i].id == s.nextId + i
    ensures r.src.nextId == s.nextId + |r.rows|
    ensures r.gen.editorIds == gen.editorIds + EditorIds(r.rows)
    ensures forall e :: e in r.rows ==> e.kind == "entreprise" || e.kind == "particulier"
  {
    var (rows, s1) := GenerateEditorRows(cfg, cfg.numEditors, s);
    EditorsOut(EditorGen(gen.editorIds + EditorIds(rows)), rows, s1)
  }

  /** Calling the generator twice keeps the first call's ids and adds `numEditors` more. */
  lemma SecondCallAccumulates(cfg: Config, s: Src)
    ensures var first := GenerateEditors(NewEditorGen, cfg, s);
            var second := GenerateEditors(first.gen, cfg, first.src);
            && second.gen.editorIds[..|first.gen.editorIds|] == first.gen.editorIds
            && |second.gen.editorIds| == 2 * Clamp0(cfg.numEditors)
  {
  }
}
