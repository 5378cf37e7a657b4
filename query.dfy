/**
 * The one query shape both route files use: keep the rows of a table that satisfy
 * a filter and return their ids newest first (`query.filter(...).order_by(created_at.desc()).all()`).
 * Rows with equal keys may come back in either order, as the database promises nothing for them.
 */
module Query {

  predicate NoDup(ids: seq<int>)
  {
    forall i, j :: 0 <= i < j < |ids| ==> ids[i] != ids[j]
  }

  /** Ordered by `rank`, largest first. */
  predicate SortedDesc(ids: seq<int>, rank: int -> int)
  {
    forall i, j :: 0 <= i < j < |ids| ==> rank(ids[i]) >= rank(ids[j])
  }

  /** Where `x` goes in a list sorted by `rank`: after every entry ranked at least as high. */
  function InsertPos(x: int, s: seq<int>, rank: int -> int): (k: nat)
    ensures k <= |s|
    ensures forall i :: 0 <= i < k ==> rank(s[i]) >= rank(x)
    ensures k < |s| ==> rank(s[k]) < rank(x)
  {
    if s == [] || rank(s[0]) < rank(x) then 0 else 1 + InsertPos(x, s[1..], rank)
  }

  function InsertDesc(x: int, s: seq<int>, rank: int -> int): seq<int>
  {
    var k := InsertPos(x, s, rank);
    s[..k] + [x] + s[k..]
  }

  /** Inserting keeps the order and the entries, and adds exactly `x`. */
  lemma InsertDescSpec(x: int, s: seq<int>, rank: int -> int)
    requires SortedDesc(s, rank)
    ensures var r := InsertDesc(x, s, rank);
      && |r| == |s| + 1
      && SortedDesc(r, rank)
      && (forall y :: y in r <==> y == x || y in s)
      && (NoDup(s) && x !in s ==> NoDup(r))
  {
    var k := InsertPos(x, s, rank);
    var r := InsertDesc(x, s, rank);
    assert r == s[..k] + [x] + s[k..];
    forall i, j | 0 <= i < j < |r|
      ensures rank(r[i]) >= rank(r[j])
    {
      if j < k {
      } else if j == k {
      } else if i < k {
        assert r[j] == s[j - 1];
        assert rank(s[i]) >= rank(s[j - 1]);
      } else if i == k {
        assert rank(s[k]) >= rank(s[j - 1]);
      } else {
      }
    }
    forall y
      ensures y in r <==> y == x || y in s
    {
      assert s == s[..k] + s[k..];
    }
  }

  /** A non-empty set has a member to pick. */
  lemma HasMember(s: set<int>)
    requires s != {}
    ensures exists x :: x in s
  {
    assert (forall x :: x !in s) ==> s == {};
  }

  /** The ids of the rows of `m` kept by `keep`, each once, largest `rank` first. */
  method SelectDesc<V>(m: map<int, V>, keep: V -> bool, rank: int -> int) returns (ids: seq<int>)
    ensures NoDup(ids)
    ensures forall i :: 0 <= i < |ids| ==> ids[i] in m && keep(m[ids[i]])
    ensures forall id :: id in m && keep(m[id]) ==> id in ids
    ensures SortedDesc(ids, rank)
  {
    var rest := m.Keys;
    ids := [];
    while rest != {}
      invariant rest <= m.Keys
      invariant NoDup(ids)
      invariant forall i :: 0 <= i < |ids| ==> ids[i] in m && ids[i] !in rest && keep(m[ids[i]])
      invariant forall id :: id in m && id !in rest && keep(m[id]) ==> id in ids
      invariant SortedDesc(ids, rank)
      decreases rest
    {
      HasMember(rest);
      var id :| id in rest;
      rest := rest - {id};
      if keep(m[id]) {
        InsertDescSpec(id, ids, rank);
        ids := InsertDesc(id, ids, rank);
      }
    }
  }
}
