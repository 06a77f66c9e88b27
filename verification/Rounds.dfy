/** The round-robin cursor: which pool each tick visits. */
module Rounds {

  /** The cursor is a 64-bit usize. */
  const CURSORS: nat := 0x1_0000_0000_0000_0000

  function NextCursor(cursor: nat): nat {
    (cursor + 1) % CURSORS
  }

  function InTurn(names: seq<string>, cursor: nat): string
    requires names != []
  {
    names[cursor % |names|]
  }

  /** How many of `k` ticks from `cursor` on visit the pool. */
  function Visits(names: seq<string>, cursor: nat, k: nat, name: string): nat
    requires names != []
  {
    if k == 0 then 0
    else Visits(names, cursor, k - 1, name) + if InTurn(names, cursor + k - 1) == name then 1 else 0
  }

  lemma {:induction false} VisitsAdd(names: seq<string>, cursor: nat, k: nat, l: nat, name: string)
    requires names != []
    ensures Visits(names, cursor, k + l, name) == Visits(names, cursor, k, name) + Visits(names, cursor + k, l, name)
  {
    if l > 0 {
      VisitsAdd(names, cursor, k, l - 1, name);
    }
  }

  lemma Multiple(d: int, n: nat)
    requires n > 0
    ensures d >= 1 ==> d * n >= n
    ensures d <= -1 ==> d * n + n <= 0
  {
    if d >= 1 {
      assert (d - 1) * n >= 0;
      assert d * n == (d - 1) * n + n;
    }
    if d <= -1 {
      assert (-1 - d) * n >= 0;
      assert d * n == -((-1 - d) * n) - n;
    }
  }

  /** Division with remainder is unique. */
  lemma Remainder(x: int, n: nat, q: int, r: nat)
    requires r < n && x == q * n + r
    ensures x % n == r
  {
    var p, m := x / n, x % n;
    assert x == p * n + m;
    assert (q - p) * n == q * n - p * n;
    Multiple(q - p, n);
  }

  lemma TwiceInOneRound(n: nat, a: nat, b: nat)
    requires n > 0 && a < b < a + n
    ensures a % n != b % n
  {
    if a % n == b % n {
      var p, q, m := a / n, b / n, a % n;
      assert a == p * n + m && b == q * n + m;
      assert (q - p) * n == q * n - p * n;
      Multiple(q - p, n);
    }
  }

  /** Every round has a tick for every place in the list. */
  lemma TurnExists(n: nat, cursor: nat, i: nat) returns (j: nat)
    requires i < n
    ensures j < n && (cursor + j) % n == i
  {
    var q, c := cursor / n, cursor % n;
    assert cursor == q * n + c;
    if i >= c {
      j := i - c;
      Remainder(cursor + j, n, q, i);
    } else {
      j := n + i - c;
      assert (q + 1) * n == q * n + n;
      Remainder(cursor + j, n, q + 1, i);
    }
  }

  ghost predicate SamePlace(names: seq<string>, a: int, b: int) {
    0 <= a < |names| && 0 <= b < |names| && names[a] == names[b] ==> a == b
  }

  ghost predicate NoneTwice(names: seq<string>) {
    forall a: int, b: int {:trigger SamePlace(names, a, b)} :: SamePlace(names, a, b)
  }

  lemma {:induction false} OneTurn(names: seq<string>, cursor: nat, k: nat, i: nat, j: nat)
    requires i < |names| && j < |names| && k <= |names| && (cursor + j) % |names| == i
    requires NoneTwice(names)
    ensures Visits(names, cursor, k, names[i]) == if j < k then 1 else 0
  {
    if k > 0 {
      OneTurn(names, cursor, k - 1, i, j);
      assert SamePlace(names, i, (cursor + k - 1) % |names|);
      if k - 1 < j {
        TwiceInOneRound(|names|, cursor + k - 1, cursor + j);
      } else if j < k - 1 {
        TwiceInOneRound(|names|, cursor + j, cursor + k - 1);
      }
    }
  }

  /** As many ticks as there are pools visit every pool exactly once. */
  lemma EachPoolOnce(names: seq<string>, cursor: nat, name: string)
    requires name in names && NoneTwice(names)
    ensures Visits(names, cursor, |names|, name) == 1
  {
    var i :| 0 <= i < |names| && names[i] == name;
    var j := TurnExists(|names|, cursor, i);
    OneTurn(names, cursor, |names|, i, j);
  }

  lemma OneMoreRound(rounds: nat, n: nat)
    requires rounds > 0
    ensures (rounds - 1) * n + n == rounds * n
  {
  }

  lemma {:induction false} EachPoolOnceARound(names: seq<string>, cursor: nat, rounds: nat, name: string)
    requires name in names && NoneTwice(names)
    ensures Visits(names, cursor, rounds * |names|, name) == rounds
  {
    if rounds > 0 {
      var before := (rounds - 1) * |names|;
      EachPoolOnceARound(names, cursor, rounds - 1, name);
      EachPoolOnce(names, cursor + before, name);
      VisitsAdd(names, cursor, before, |names|, name);
      OneMoreRound(rounds, |names|);
    }
  }
}
