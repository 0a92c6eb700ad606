/** The publish-status side tables kept by the game, DLC and patch generators:
    a `HashMap<UUID, Boolean>` written with `put` and read with `getOrDefault(id, false)`. */
module PublishMap {
  import opened Common

  /** `status.getOrDefault(id, false)`: an id never recorded reads as unpublished. */
  function Flag(m: map<Id, bool>, id: Id): bool {
    if id in m then m[id] else false
  }

  /** The list built by walking `status.entrySet()` and keeping the keys mapped to true;
      hash order is not modelled, so it is a set. */
  function TrueKeys(m: map<Id, bool>): (r: set<Id>)
    ensures forall id :: id in r <==> Flag(m, id)
  {
    set id | id in m && m[id]
  }

  /** One `put(id, flag)` per pair, in order. */
  function PutFlags(m: map<Id, bool>, kvs: seq<(Id, bool)>): map<Id, bool>
    decreases |kvs|
  {
    if |kvs| == 0 then m else PutFlags(m[kvs[0].0 := kvs[0].1], kvs[1..])
  }

  predicate DistinctKeys(kvs: seq<(Id, bool)>) {
    forall i, j :: 0 <= i < j < |kvs| ==> kvs[i].0 != kvs[j].0
  }

  /** After the puts, each recorded id reads back as its own flag (ids pairwise different),
      and every id that was not put reads as before. */
  lemma {:induction false} PutFlagsReadBack(m: map<Id, bool>, kvs: seq<(Id, bool)>)
    requires DistinctKeys(kvs)
    ensures forall i :: 0 <= i < |kvs| ==> Flag(PutFlags(m, kvs), kvs[i].0) == kvs[i].1
    ensures forall id :: (forall i :: 0 <= i < |kvs| ==> kvs[i].0 != id) ==> Flag(PutFlags(m, kvs), id) == Flag(m, id)
    decreases |kvs|
  {
    if |kvs| > 0 {
      var m' := m[kvs[0].0 := kvs[0].1];
      PutFlagsReadBack(m', kvs[1..]);
      forall i | 0 <= i < |kvs|
        ensures Flag(PutFlags(m, kvs), kvs[i].0) == kvs[i].1
      {
        if i == 0 {
          assert forall j :: 0 <= j < |kvs[1..]| ==> kvs[1..][j].0 != kvs[0].0 by {
            forall j | 0 <= j < |kvs[1..]| ensures kvs[1..][j].0 != kvs[0].0 {
              assert kvs[1..][j] == kvs[j + 1];
            }
          }
        } else {
          assert kvs[i] == kvs[1..][i - 1];
        }
      }
      forall id | (forall i :: 0 <= i < |kvs| ==> kvs[i].0 != id)
        ensures Flag(PutFlags(m, kvs), id) == Flag(m, id)
      {
        assert kvs[0].0 != id;
        assert forall j :: 0 <= j < |kvs[1..]| ==> kvs[1..][j].0 != id by {
          forall j | 0 <= j < |kvs[1..]| ensures kvs[1..][j].0 != id {
            assert kvs[1..][j] == kvs[j + 1];
          }
        }
      }
    }
  }

  /** The same for keys handed out in a row from `base`, read at one id: a fresh id reads back as
      the flag put for it, and an id older than `base` reads as before. */
  lemma ConsecutiveReadBack(m: map<Id, bool>, kvs: seq<(Id, bool)>, base: nat, id: Id)
    requires forall i :: 0 <= i < |kvs| ==> kvs[i].0 == base + i
    ensures forall i :: 0 <= i < |kvs| && kvs[i].0 == id ==> Flag(PutFlags(m, kvs), id) == kvs[i].1
    ensures id < base ==> Flag(PutFlags(m, kvs), id) == Flag(m, id)
  {
    PutFlagsReadBack(m, kvs);
  }
}
