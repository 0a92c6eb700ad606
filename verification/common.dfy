/** Shared vocabulary of the loader: identifiers, the two fixed enumerations,
    the run configuration, and small sequence utilities. */
module Common {

  datatype Option<+T> = None | Some(value: T)

  /** A UUID. The model hands them out from a counter, so they are fresh by construction. */
  type Id = nat

  /** The database enum `platform_enum`. */
  datatype Platform = PC | XBOX | PS5 | SWITCH

  /** The database enum `genre_enum`. */
  datatype Genre = ACTION | RPG | STRATEGY | SPORTS

  /** The PLATFORMS array shared by the game, patch, bug report and evaluation generators. */
  const Platforms: seq<Platform> := [PC, XBOX, PS5, SWITCH]

  /** The GENRES array of the game generator. */
  const Genres: seq<Genre> := [ACTION, RPG, STRATEGY, SPORTS]

  /** The loader's configuration, read once at start-up. Counts and percentages are Java ints. */
  datatype Config = Config(
    numEditors: int,
    gamesMin: int, gamesMax: int,
    dlcMin: int, dlcMax: int,
    patchesMin: int, patchesMax: int,
    bugMin: int, bugMax: int,
    evalMin: int, evalMax: int,
    enterprisePct: int,
    publishPct: int,
    clearTables: bool)
  {
    /** Every range is handed to `randomInt(min, max)`, whose `nextInt(max - min + 1)` demands a
        positive bound once the subtraction has wrapped. */
    predicate Valid() {
      && RangeOk(gamesMin, gamesMax)
      && RangeOk(dlcMin, dlcMax)
      && RangeOk(patchesMin, patchesMax)
      && RangeOk(bugMin, bugMax)
      && RangeOk(evalMin, evalMax)
    }
  }

  /** A non-empty range whose size `max - min + 1` is still a positive Java `int`. */
  predicate RangeOk(min: int, max: int) {
    min <= max && max - min < 0x7FFF_FFFF
  }

  /** The values of a Java `int`. */
  predicate Int32(x: int) {
    -0x8000_0000 <= x < 0x8000_0000
  }

  /** A Java `int`: arithmetic wraps modulo 2^32 into [-2^31, 2^31). */
  function Wrap32(x: int): (r: int)
    ensures Int32(r)
    ensures Int32(x) ==> r == x
  {
    (x + 0x8000_0000) % 0x1_0000_0000 - 0x8000_0000
  }

  /** Every batch holds between `Clamp0(lo)` and `Clamp0(hi)` elements: the count of a loop run
      `randomInt(lo, hi)` times. */
  predicate SizesIn<T>(batches: seq<seq<T>>, lo: int, hi: int) {
    forall i :: 0 <= i < |batches| ==> Clamp0(lo) <= |batches[i]| <= Clamp0(hi)
  }

  /** Number of iterations of `for (int i = 0; i < n; i++)`. */
  function Clamp0(n: int): nat {
    if n < 0 then 0 else n
  }

  lemma Clamp0Monotone(a: int, b: int)
    requires a <= b
    ensures Clamp0(a) <= Clamp0(b)
  {
  }

  predicate Distinct<T(==)>(s: seq<T>) {
    forall i, j :: 0 <= i < j < |s| ==> s[i] != s[j]
  }

  /** Concatenation of a sequence of sequences, in order. */
  function Flatten<T>(ss: seq<seq<T>>): seq<T>
    decreases |ss|
  {
    if |ss| == 0 then [] else ss[0] + Flatten(ss[1..])
  }

  lemma {:induction false} FlattenMember<T>(ss: seq<seq<T>>, x: T)
    ensures x in Flatten(ss) <==> exists i :: 0 <= i < |ss| && x in ss[i]
    decreases |ss|
  {
    if |ss| > 0 {
      FlattenMember(ss[1..], x);
      if x in Flatten(ss[1..]) {
        var i :| 0 <= i < |ss[1..]| && x in ss[1..][i];
        assert x in ss[i + 1];
      }
      if exists i :: 0 <= i < |ss| && x in ss[i] {
        var i :| 0 <= i < |ss| && x in ss[i];
        if i > 0 {
          assert x in ss[1..][i - 1];
        }
      }
    }
  }

  /** An element of the concatenation sits at some position of some part. */
  lemma FlattenIndex<T>(ss: seq<seq<T>>, x: T)
    requires x in Flatten(ss)
    ensures exists i, k :: 0 <= i < |ss| && 0 <= k < |ss[i]| && ss[i][k] == x
  {
    FlattenMember(ss, x);
  }

  lemma FlattenAppend<T>(ss: seq<seq<T>>, last: seq<T>)
    ensures Flatten(ss + [last]) == Flatten(ss) + last
    decreases |ss|
  {
    if |ss| == 0 {
      assert ss + [last] == [last];
    } else {
      assert (ss + [last])[1..] == ss[1..] + [last];
      FlattenAppend(ss[1..], last);
    }
  }

  /** Total length of a flattened sequence. */
  function SumLengths<T>(ss: seq<seq<T>>): nat
    decreases |ss|
  {
    if |ss| == 0 then 0 else |ss[0]| + SumLengths(ss[1..])
  }

  lemma {:induction false} FlattenLength<T>(ss: seq<seq<T>>)
    ensures |Flatten(ss)| == SumLengths(ss)
    decreases |ss|
  {
    if |ss| > 0 {
      FlattenLength(ss[1..]);
    }
  }

  /** If every part has between lo and hi elements, the whole has between |ss|*lo and |ss|*hi. */
  lemma {:induction false} SumLengthsBounds<T>(ss: seq<seq<T>>, lo: nat, hi: nat)
    requires forall i :: 0 <= i < |ss| ==> lo <= |ss[i]| <= hi
    ensures |ss| * lo <= SumLengths(ss) <= |ss| * hi
    decreases |ss|
  {
    if |ss| > 0 {
      SumLengthsBounds(ss[1..], lo, hi);
      assert |ss| * lo == lo + (|ss| - 1) * lo;
      assert |ss| * hi == hi + (|ss| - 1) * hi;
    }
  }
}
