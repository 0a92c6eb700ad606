/** EvaluationGenerator: for every game, a sampled number of evaluations, each with a rating
    drawn from a five-bucket distribution and a review chosen by the rating's band. */
module EvaluationGenerator {
  import opened Common
  import opened Text
  import opened Faker
  import opened Rows

  /** `generateRealisticRating`: one `nextInt(100)` picks the bucket (5, 15, 30, 40 and 10 out of
      100), and all but the last bucket draw the rating inside it. */
  function Rating(s: Src): (r: (int, Src))
    ensures 0 <= r.0 <= 10
    ensures var d := Peek(s) % 100;
            && (d < 5 <==> r.0 <= 3)
            && (5 <= d < 20 <==> 4 <= r.0 <= 5)
            && (20 <= d < 50 <==> 6 <= r.0 <= 7)
            && (50 <= d < 90 <==> 8 <= r.0 <= 9)
            && (90 <= d <==> r.0 == 10)
    ensures r.1.nextId == s.nextId
  {
    var (random, s1) := NextInt(s, 100);
    if random < 5 then RandomInt(s1, 0, 3)
    else if random < 20 then RandomInt(s1, 4, 5)
    else if random < 50 then RandomInt(s1, 6, 7)
    else if random < 90 then RandomInt(s1, 8, 9)
    else (10, s1)
  }

  /** Every rating from 0 to 10 is produced by some pair of draws. */
  lemma RatingAttains(s: Src, note: int)
    requires 0 <= note <= 10
    ensures exists bucket, within :: Rating(s.(draws := [bucket, within] + s.draws)).0 == note
  {
    var (bucket, lo) :=
      if note <= 3 then (0, 0)
      else if note <= 5 then (5, 4)
      else if note <= 7 then (20, 6)
      else if note <= 9 then (50, 8)
      else (90, 10);
    var within := note - lo;
    var s0 := s.(draws := [bucket, within] + s.draws);
    assert Consume(s0) == s.(draws := [within] + s.draws);
    if note < 10 {
      RandomIntAttains(s, lo, if note <= 3 then 3 else lo + 1, note);
    }
    assert Rating(s0).0 == note;
  }

  /** The five review tones of `generateReviewDescription`. */
  datatype Band = VeryNegative | Negative | Mixed | MixedPositive | Positive
  {
    /** The tones from worst to best. */
    function Rank(): nat {
      match this
      case VeryNegative => 0
      case Negative => 1
      case Mixed => 2
      case MixedPositive => 3
      case Positive => 4
    }
  }

  /** The thresholds of `generateReviewDescription`: 9, 7, 5 and 3. */
  function BandOf(note: int): (b: Band)
    ensures b == Positive <==> note >= 9
    ensures b == MixedPositive <==> 7 <= note < 9
    ensures b == Mixed <==> 5 <= note < 7
    ensures b == Negative <==> 3 <= note < 5
    ensures b == VeryNegative <==> note < 3
  {
    if note >= 9 then Positive
    else if note >= 7 then MixedPositive
    else if note >= 5 then Mixed
    else if note >= 3 then Negative
    else VeryNegative
  }

  /** A better rating never gets a worse tone. */
  lemma BandMonotone(a: int, b: int)
    requires a <= b
    ensures BandOf(a).Rank() <= BandOf(b).Rank()
  {
  }

  /** The seven templates of each tone, from `generatePositiveReview` down to
      `generateVeryNegativeReview`. */
  const PositiveReviews: seq<string> := [
    "Absolutely amazing game! The graphics are stunning and gameplay is incredibly smooth.",
    "Best game I've played this year. Highly recommend to everyone!",
    "Perfect in every way. The story, mechanics, and visuals are all top-notch.",
    "A masterpiece! This game sets a new standard for the genre.",
    "Incredible experience from start to finish. Worth every penny!",
    "Flawless execution. The developers really nailed everything.",
    "Game of the year material. Everything about it is phenomenal."
  ]

  const MixedPositiveReviews: seq<string> := [
    "Great game overall! A few minor bugs but nothing game-breaking.",
    "Really enjoyed it. Some performance issues but the gameplay makes up for it.",
    "Solid experience. Could use some improvements but definitely worth playing.",
    "Very good game with a great story. Some mechanics feel a bit clunky though.",
    "Impressive work! A few rough edges but still highly enjoyable.",
    "Fun gameplay with beautiful graphics. A few optimization issues on my platform.",
    "Strong entry in the series. Not perfect but definitely recommended."
  ]

  const MixedReviews: seq<string> := [
    "It's okay. Has potential but needs more polish and content.",
    "Average game. Some good ideas but execution could be better.",
    "Decent but nothing special. Lots of room for improvement.",
    "Mixed feelings about this one. Good concept, mediocre execution.",
    "Not bad but not great either. Wait for a sale maybe.",
    "Has its moments but also significant flaws. Needs patches.",
    "Serviceable game. Fun in parts but repetitive and buggy."
  ]

  const NegativeReviews: seq<string> := [
    "Disappointing. So many bugs and performance issues.",
    "Not worth the price. Lacks content and feels unfinished.",
    "Frustrating experience. Controls are clunky and AI is terrible.",
    "Expected much more. Feels like a rushed release.",
    "Poor optimization and boring gameplay. Skip this one.",
    "Too many issues to enjoy. Needs serious work from developers.",
    "Underwhelming in every aspect. Better alternatives exist."
  ]

  const VeryNegativeReviews: seq<string> := [
    "Complete waste of money. Crashes constantly and barely playable.",
    "Absolutely terrible. Save your money and time.",
    "Broken mess. How did this even get released?",
    "Unplayable. Constant crashes and game-breaking bugs everywhere.",
    "Worst game purchase I've made. Requesting refund.",
    "Total disaster. Nothing works as intended.",
    "Avoid at all costs. Fundamentally broken on multiple levels."
  ]

  function Reviews(b: Band): seq<string> {
    match b
    case Positive => PositiveReviews
    case MixedPositive => MixedPositiveReviews
    case Mixed => MixedReviews
    case Negative => NegativeReviews
    case VeryNegative => VeryNegativeReviews
  }

  lemma ReviewsSize(b: Band)
    ensures |Reviews(b)| == 7
  {
  }

  /** A review written for `note`: one template of the note's tone, a space and Faker's sentence. */
  ghost predicate ReviewFor(d: string, note: int) {
    exists k, context :: 0 <= k < 7 && d == Reviews(BandOf(note))[k] + " " + context
  }

  /** `generateReviewDescription(note)`. */
  function ReviewDescription(note: int, s: Src): (r: (string, Src))
    ensures ReviewFor(r.0, note)
    ensures r.1.nextId == s.nextId
  {
    var templates := Reviews(BandOf(note));
    ReviewsSize(BandOf(note));
    var (review, s1) := NextInt(s, |templates|);
    var (context, s2) := NextWord(s1);
    (templates[review] + " " + context, s2)
  }

  /** One iteration of the loop in `generateEvaluationsForGame`: platform, then rating, then review. */
  function GenerateEvaluation(gameId: Id, s: Src): (r: (Evaluation, Src))
    ensures r.0.gameId == gameId
    ensures 0 <= r.0.note <= 10
    ensures ReviewFor(r.0.description, r.0.note)
    ensures r.1.nextId == s.nextId
  {
    var (platform, s1) := RandomElement(s, Platforms);
    var (note, s2) := Rating(s1);
    var (description, s3) := ReviewDescription(note, s2);
    (Evaluation(gameId, description, platform, note), s3)
  }

  ghost predicate EvaluationOk(v: Evaluation, gameId: Id) {
    v.gameId == gameId && 0 <= v.note <= 10 && ReviewFor(v.description, v.note)
  }

  /** `generateEvaluationsForGame(gameId, numEvaluations)`. */
  method GenerateEvaluationsForGame(gameId: Id, n: int, s: Src) returns (evaluations: seq<Evaluation>, s': Src)
    ensures |evaluations| == Clamp0(n)
    ensures forall k :: 0 <= k < |evaluations| ==> EvaluationOk(evaluations[k], gameId)
    ensures s'.nextId == s.nextId
  {
    evaluations, s' := [], s;
    var i := 0;
    while i < n
      invariant 0 <= i <= Clamp0(n)
      invariant |evaluations| == i && s'.nextId == s.nextId
      invariant forall k :: 0 <= k < i ==> EvaluationOk(evaluations[k], gameId)
    {
      var (v, s1) := GenerateEvaluation(gameId, s');
      evaluations, s' := evaluations + [v], s1;
      i := i + 1;
    }
  }

  /** `generateEvaluations(gameIds)`: for each game in order a count drawn from
      `[evalMin, evalMax]` and that many evaluations. One batch per game. */
  method GenerateEvaluations(cfg: Config, gameIds: seq<Id>, s: Src)
    returns (batches: seq<seq<Evaluation>>, s': Src)
    requires cfg.Valid()
    ensures |batches| == |gameIds|
    ensures SizesIn(batches, cfg.evalMin, cfg.evalMax)
    ensures forall i, k :: 0 <= i < |batches| && 0 <= k < |batches[i]| ==> EvaluationOk(batches[i][k], gameIds[i])
    ensures s'.nextId == s.nextId
  {
    batches, s' := [], s;
    var i := 0;
    while i < |gameIds|
      invariant 0 <= i <= |gameIds|
      invariant |batches| == i && s'.nextId == s.nextId
      invariant forall j :: 0 <= j < i ==> Clamp0(cfg.evalMin) <= |batches[j]| <= Clamp0(cfg.evalMax)
      invariant forall j, k :: 0 <= j < i && 0 <= k < |batches[j]| ==> EvaluationOk(batches[j][k], gameIds[j])
    {
      var (n, s1) := RandomInt(s', cfg.evalMin, cfg.evalMax);
      Clamp0Monotone(cfg.evalMin, n);
      Clamp0Monotone(n, cfg.evalMax);
      var batch, s2 := GenerateEvaluationsForGame(gameIds[i], n, s1);
      batches, s' := batches + [batch], s2;
      i := i + 1;
    }
  }
}
