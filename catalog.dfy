/**
 * The program table: the records the server keeps in its `programs` list, and
 * the list operations its handlers use on it (lookup by id, filter by id, the
 * next free id, the total of the tallies).
 */
module Catalog {
  import opened Wrappers
  import opened JsValues

  /**
   * One competing program. `name` and `category` are whatever the request
   * body carried (possibly absent); `votes` is the tally.
   */
  datatype Program = Program(id: int, name: Field, votes: int, category: Field)

  /** No two entries of the list share an id. */
  predicate DistinctIds(ps: seq<Program>) {
    forall i, j :: 0 <= i < j < |ps| ==> ps[i].id != ps[j].id
  }

  /**
   * `findIndex(p => p.id === id)`: the first position holding that id, or
   * `None` when there is none.
   */
  function FindIndex(ps: seq<Program>, id: int): (r: Option<nat>)
    ensures r.Some? ==> r.value < |ps| && ps[r.value].id == id
    ensures r.Some? ==> forall j :: 0 <= j < r.value ==> ps[j].id != id
    ensures r.None? ==> forall j :: 0 <= j < |ps| ==> ps[j].id != id
  {
    if ps == [] then None
    else if ps[0].id == id then Some(0)
    else match FindIndex(ps[1..], id)
      case None => None
      case Some(k) => Some(k + 1)
  }

  /**
   * `find(p => p.id === programId)` for a request field: only a number can be
   * strictly equal to a program id.
   */
  function Lookup(ps: seq<Program>, programId: Field): (r: Option<nat>)
    ensures r.Some? <==> programId.Num? && exists j :: 0 <= j < |ps| && ps[j].id == programId.n
    ensures r.Some? ==> r.value < |ps| && ps[r.value].id == programId.n
  {
    if programId.Num? then FindIndex(ps, programId.n) else None
  }

  /** The largest id in a non-empty list (`Math.max(...ids)`). */
  function MaxId(ps: seq<Program>): (m: int)
    requires |ps| > 0
    ensures forall j :: 0 <= j < |ps| ==> ps[j].id <= m
    ensures exists j :: 0 <= j < |ps| && ps[j].id == m
  {
    if |ps| == 1 then ps[0].id
    else
      var rest := MaxId(ps[1..]);
      assert forall j :: 1 <= j < |ps| ==> ps[j] == ps[1..][j - 1];
      if ps[0].id >= rest then ps[0].id else rest
  }

  /** The id a new program gets: one more than the largest id, or 1 for an empty list. */
  function NextId(ps: seq<Program>): (r: int)
    ensures forall j :: 0 <= j < |ps| ==> ps[j].id < r
    ensures ps == [] ==> r == 1
    ensures ps != [] ==> exists j :: 0 <= j < |ps| && ps[j].id + 1 == r
  {
    if |ps| > 0 then MaxId(ps) + 1 else 1
  }

  /** `filter(p => p.id !== id)`: the list without every entry carrying that id. */
  function Without(ps: seq<Program>, id: int): (r: seq<Program>)
    ensures |r| <= |ps|
    ensures forall p :: p in r ==> p in ps && p.id != id
    ensures forall p :: p in ps && p.id != id ==> p in r
  {
    if ps == [] then []
    else if ps[0].id == id then Without(ps[1..], id)
    else [ps[0]] + Without(ps[1..], id)
  }

  /** The sum of all tallies. */
  function TotalVotes(ps: seq<Program>): int {
    if ps == [] then 0 else ps[0].votes + TotalVotes(ps[1..])
  }

  /** Appending a program with the next id keeps the ids pairwise distinct. */
  lemma NextIdKeepsIdsDistinct(ps: seq<Program>, p: Program)
    requires DistinctIds(ps)
    requires p.id == NextId(ps)
    ensures DistinctIds(ps + [p])
  {
  }

  /** Filtering distributes over concatenation, so it keeps the survivors in their order. */
  lemma {:induction false} WithoutAppend(a: seq<Program>, b: seq<Program>, id: int)
    ensures Without(a + b, id) == Without(a, id) + Without(b, id)
  {
    if a == [] {
      assert a + b == b;
    } else {
      assert (a + b)[0] == a[0] && (a + b)[1..] == a[1..] + b;
      WithoutAppend(a[1..], b, id);
    }
  }

  /** Filtering an id that no entry carries leaves the list as it was. */
  lemma {:induction false} WithoutAbsent(ps: seq<Program>, id: int)
    requires forall j :: 0 <= j < |ps| ==> ps[j].id != id
    ensures Without(ps, id) == ps
  {
    if ps != [] {
      WithoutAbsent(ps[1..], id);
    }
  }

  /** Filtering keeps the ids pairwise distinct. */
  lemma {:induction false} WithoutKeepsIdsDistinct(ps: seq<Program>, id: int)
    requires DistinctIds(ps)
    ensures DistinctIds(Without(ps, id))
  {
    if ps != [] {
      var rest := ps[1..];
      assert DistinctIds(rest) by {
        forall i, j | 0 <= i < j < |rest| ensures rest[i].id != rest[j].id {
          assert rest[i] == ps[i + 1] && rest[j] == ps[j + 1];
        }
      }
      WithoutKeepsIdsDistinct(rest, id);
      if ps[0].id != id {
        var w := Without(rest, id);
        var r := [ps[0]] + w;
        forall i, j | 0 <= i < j < |r| ensures r[i].id != r[j].id {
          if i == 0 {
            assert r[j] == w[j - 1] && w[j - 1] in rest;
            var k :| 0 <= k < |rest| && rest[k] == w[j - 1];
            assert rest[k] == ps[k + 1];
          } else {
            assert r[i] == w[i - 1] && r[j] == w[j - 1];
          }
        }
      }
    }
  }

  /**
   * Ids are not reserved: after the newest program is added and deleted
   * again, the next program added gets the same id, since the next id is
   * computed from the ids currently in the list.
   */
  lemma {:induction false} NextIdReusedAfterDelete(ps: seq<Program>, p: Program)
    requires p.id == NextId(ps)
    ensures NextId(Without(ps + [p], p.id)) == p.id
  {
    WithoutAppend(ps, [p], p.id);
    WithoutAbsent(ps, p.id);
    assert Without([p], p.id) == [];
    assert Without(ps + [p], p.id) == ps;
  }

  /** Replacing one entry changes the total by the difference of the two tallies. */
  lemma {:induction false} TotalAfterReplacing(ps: seq<Program>, i: nat, q: Program)
    requires i < |ps|
    ensures TotalVotes(ps[i := q]) == TotalVotes(ps) - ps[i].votes + q.votes
  {
    if i > 0 {
      assert ps[i := q][1..] == ps[1..][i - 1 := q];
      TotalAfterReplacing(ps[1..], i - 1, q);
    }
  }

  /** A list whose every tally is zero has a zero total. */
  lemma {:induction false} TotalOfZeroTallies(ps: seq<Program>)
    requires forall j :: 0 <= j < |ps| ==> ps[j].votes == 0
    ensures TotalVotes(ps) == 0
  {
    if ps != [] {
      TotalOfZeroTallies(ps[1..]);
    }
  }
}
