/** FakerProvider: the process-wide source of randomness shared by every generator.

    The run's randomness is an explicit value `Src`:
    - `draws` are the successive outputs of the shared `java.util.Random`; a call
      `nextInt(bound)` consumes one draw `d` and yields `d % bound` (an exhausted
      sequence reads as zeros);
    - `words` are the successive strings returned by the Faker library, which keeps
      its own random state; their content is opaque (an exhausted sequence reads as "");
    - `nextId` is the next fresh identifier, standing for `UUID.randomUUID()`. */
module Faker {
  import opened Common

  datatype Src = Src(draws: seq<int>, words: seq<string>, nextId: Id)

  /** The draw the next `nextInt` call will consume. */
  function Peek(s: Src): int {
    if |s.draws| == 0 then 0 else s.draws[0]
  }

  /** The source after one draw has been consumed. */
  function Consume(s: Src): Src {
    if |s.draws| == 0 then s else s.(draws := s.draws[1..])
  }

  /** `random.nextInt(bound)`; Java throws on a non-positive bound. */
  function NextInt(s: Src, bound: int): (r: (int, Src))
    requires bound > 0
    ensures 0 <= r.0 < bound
    ensures r.1 == Consume(s)
  {
    (Peek(s) % bound, Consume(s))
  }

  /** Every value below the bound is the outcome of some draw. */
  lemma NextIntAttains(s: Src, bound: int, v: int)
    requires 0 <= v < bound
    ensures NextInt(s.(draws := [v] + s.draws), bound).0 == v
  {
  }

  /** `randomInt(min, max)`: `nextInt(max - min + 1) + min`. */
  function RandomInt(s: Src, min: int, max: int): (r: (int, Src))
    requires RangeOk(min, max)
    ensures min <= r.0 <= max
    ensures r.1 == Consume(s)
  {
    var (d, s1) := NextInt(s, max - min + 1);
    (d + min, s1)
  }

  /** Both ends of the range, and everything between, can be drawn. */
  lemma RandomIntAttains(s: Src, min: int, max: int, v: int)
    requires RangeOk(min, max) && min <= v <= max
    ensures RandomInt(s.(draws := [v - min] + s.draws), min, max).0 == v
  {
  }

  /** For `int` arguments the bound `max - min + 1` that `randomInt` passes to `nextInt` is
      positive, as `nextInt` demands, exactly for a `RangeOk` range or for a reversed range so
      wide that the subtraction wraps round to a positive value. */
  lemma RandomIntBound(min: int, max: int)
    requires -0x8000_0000 <= min < 0x8000_0000 && -0x8000_0000 <= max < 0x8000_0000
    ensures Wrap32(max - min + 1) > 0 <==> RangeOk(min, max) || max - min + 1 < -0x8000_0000
  {
  }

  /** `randomBooleanWithProbability(p)`: `nextInt(100) < p`. */
  function RandomBool(s: Src, p: int): (r: (bool, Src))
    ensures r.0 <==> Peek(s) % 100 < p
    ensures p <= 0 ==> !r.0
    ensures p >= 100 ==> r.0
    ensures r.1 == Consume(s)
  {
    var (d, s1) := NextInt(s, 100);
    (d < p, s1)
  }

  /** `randomElement(array)`: `array[nextInt(array.length)]`; Java throws on an empty array. */
  function RandomElement<T>(s: Src, a: seq<T>): (r: (T, Src))
    requires |a| > 0
    ensures r.0 in a
    ensures r.1 == Consume(s)
  {
    var (i, s1) := NextInt(s, |a|);
    (a[i], s1)
  }

  lemma RandomElementAttains<T>(s: Src, a: seq<T>, i: int)
    requires 0 <= i < |a|
    ensures RandomElement(s.(draws := [i] + s.draws), a).0 == a[i]
  {
  }

  /** `round(randomDouble(lo, hi), places)` counted in units of the last decimal place
      (cents for prices, tenths for versions): a value in `[lo, hi]` inclusive, since
      rounding half-up can reach the open upper end. One draw stands for `nextDouble`. */
  function RoundedDouble(s: Src, lo: int, hi: int): (r: (int, Src))
    requires lo <= hi
    ensures lo <= r.0 <= hi
    ensures r.1 == Consume(s)
  {
    var (d, s1) := NextInt(s, hi - lo + 1);
    (d + lo, s1)
  }

  /** One string produced by the Faker library. */
  function NextWord(s: Src): (r: (string, Src))
    ensures r.1.draws == s.draws && r.1.nextId == s.nextId
    ensures |s.words| > 0 ==> r.0 == s.words[0] && r.1.words == s.words[1..]
  {
    if |s.words| == 0 then ("", s) else (s.words[0], s.(words := s.words[1..]))
  }

  /** `UUID.randomUUID()`: an identifier never handed out before. */
  function FreshId(s: Src): (r: (Id, Src))
    ensures r.0 == s.nextId
    ensures r.1.nextId == s.nextId + 1
    ensures r.1.draws == s.draws && r.1.words == s.words
  {
    (s.nextId, s.(nextId := s.nextId + 1))
  }

  function Swap<T>(xs: seq<T>, i: nat, j: nat): (r: seq<T>)
    requires i < |xs| && j < |xs|
    ensures |r| == |xs|
    ensures multiset(r) == multiset(xs)
    ensures r[i] == xs[j] && r[j] == xs[i]
    ensures forall k :: 0 <= k < |xs| && k != i && k != j ==> r[k] == xs[k]
  {
    xs[i := xs[j]][j := xs[i]]
  }

  lemma SwapDistinct<T>(xs: seq<T>, i: nat, j: nat)
    requires i < |xs| && j < |xs|
    requires Distinct(xs)
    ensures Distinct(Swap(xs, i, j))
  {
    var r := Swap(xs, i, j);
    forall a, b | 0 <= a < b < |r|
      ensures r[a] != r[b]
    {
      var a' := if a == i then j else if a == j then i else a;
      var b' := if b == i then j else if b == j then i else b;
      assert r[a] == xs[a'] && r[b] == xs[b'];
      assert a' != b';
    }
  }

  /** The loop of `Collections.shuffle(list, random)`: for `i` from the size down to 2,
      swap positions `i - 1` and `random.nextInt(i)`. */
  function ShuffleDown<T(==)>(s: Src, xs: seq<T>, i: nat): (r: (seq<T>, Src))
    requires i <= |xs|
    ensures |r.0| == |xs|
    ensures multiset(r.0) == multiset(xs)
    ensures Distinct(xs) ==> Distinct(r.0)
    decreases i
  {
    if i <= 1 then (xs, s)
    else
      var (j, s1) := NextInt(s, i);
      SwapDistinctIf(xs, i - 1, j);
      ShuffleDown(s1, Swap(xs, i - 1, j), i - 1)
  }

  lemma SwapDistinctIf<T>(xs: seq<T>, i: nat, j: nat)
    requires i < |xs| && j < |xs|
    ensures Distinct(xs) ==> Distinct(Swap(xs, i, j))
  {
    if Distinct(xs) {
      SwapDistinct(xs, i, j);
    }
  }

  /** `Collections.shuffle`: a permutation of its input, so a duplicate-free input stays duplicate-free. */
  function Shuffle<T(==, !new)>(s: Src, xs: seq<T>): (r: (seq<T>, Src))
    ensures |r.0| == |xs|
    ensures multiset(r.0) == multiset(xs)
    ensures forall x :: x in r.0 <==> x in xs
    ensures Distinct(xs) ==> Distinct(r.0)
    ensures r.1.nextId == s.nextId
  {
    var r := ShuffleDown(s, xs, |xs|);
    ShuffleKeepsIds(s, xs, |xs|);
    assert forall x :: x in r.0 <==> x in multiset(r.0);
    r
  }

  /** Shuffle `xs`, then keep its first `randomInt(lo, hi)` elements. */
  function ShuffledPrefix<T(==, !new)>(s: Src, xs: seq<T>, lo: int, hi: int): (r: (seq<T>, Src))
    requires 0 <= lo && hi <= |xs| && RangeOk(lo, hi)
    ensures lo <= |r.0| <= hi
    ensures exists perm: seq<T> :: multiset(perm) == multiset(xs) && |r.0| <= |perm| && r.0 == perm[..|r.0|]
    ensures forall x :: x in r.0 ==> x in xs
    ensures Distinct(xs) ==> Distinct(r.0)
    ensures r.1.nextId == s.nextId
  {
    var (shuffled, s1) := Shuffle(s, xs);
    var (k, s2) := RandomInt(s1, lo, hi);
    assert multiset(shuffled) == multiset(xs) && shuffled[..k] == shuffled[..k];
    (shuffled[..k], s2)
  }

  lemma {:induction false} ShuffleKeepsIds<T>(s: Src, xs: seq<T>, i: nat)
    requires i <= |xs|
    ensures ShuffleDown(s, xs, i).1.nextId == s.nextId
    decreases i
  {
    if i > 1 {
      var (j, s1) := NextInt(s, i);
      ShuffleKeepsIds(s1, Swap(xs, i - 1, j), i - 1);
    }
  }

  /** The provider object; `serial` tells instances apart. */
  datatype Provider = Provider(serial: nat)

  /** `getInstance()`: creates the instance on the first call (from `made`) and stores it in the
      static slot; every later call returns the stored instance. Result: (instance, new slot). */
  function GetInstance(slot: Option<Provider>, made: Provider): (r: (Provider, Option<Provider>))
    ensures r.1 == Some(r.0)
    ensures slot.Some? ==> r.0 == slot.value && r.1 == slot
    ensures slot.None? ==> r.0 == made
  {
    match slot
    case Some(p) => (p, slot)
    case None => (made, Some(made))
  }

  /** Whatever instance a later call would have created, it gets the first call's instance. */
  lemma GetInstanceStable(made1: Provider, made2: Provider, made3: Provider)
    ensures var (p1, slot1) := GetInstance(None, made1);
            var (p2, slot2) := GetInstance(slot1, made2);
            var (p3, _) := GetInstance(slot2, made3);
            p1 == p2 == p3 == made1
  {
  }
}
