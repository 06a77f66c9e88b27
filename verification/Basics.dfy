/** Optional values, results, and the string order of Rust's ordered maps and tuples. */
module Basics {
  import opened Sorting

  datatype Option<+T> = None | Some(value: T)

  /** The two ways a step of a reconciliation fails: the manager's own
      `ReconcileInterrupted`, and everything else. */
  datatype Error = Interrupted | Failed

  datatype Result<+T> = Ok(value: T) | Err(error: Error)

  function Min(a: nat, b: nat): (r: nat)
    ensures r <= a && r <= b && (r == a || r == b)
  {
    if a < b then a else b
  }

  /** Lexicographic order. Rust compares the UTF-8 bytes, which orders strings as their code points do. */
  predicate Less(a: string, b: string) {
    |b| > 0 && (|a| == 0 || a[0] < b[0] || (a[0] == b[0] && Less(a[1..], b[1..])))
  }

  lemma {:induction false} LessIsTotal(a: string, b: string)
    ensures a == b || Less(a, b) || Less(b, a)
  {
    if |a| > 0 && |b| > 0 && a[0] == b[0] {
      LessIsTotal(a[1..], b[1..]);
      assert a == [a[0]] + a[1..] && b == [b[0]] + b[1..];
    }
  }

  lemma {:induction false} LessIsTransitive(a: string, b: string, c: string)
    requires Less(a, b) && Less(b, c)
    ensures Less(a, c)
  {
    if |a| > 0 && a[0] == b[0] && b[0] == c[0] {
      LessIsTransitive(a[1..], b[1..], c[1..]);
    }
  }

  lemma {:induction false} LessIsAsymmetric(a: string, b: string)
    requires Less(a, b)
    ensures !Less(b, a)
  {
    if |a| > 0 && a[0] == b[0] {
      LessIsAsymmetric(a[1..], b[1..]);
    }
  }

  /** Where the strings part, the smaller one ends or has the smaller character. */
  lemma {:induction false} LessMeans(a: string, b: string)
    ensures Less(a, b) <==>
              exists i :: 0 <= i <= |a| && i < |b| && a[..i] == b[..i] && (i == |a| || a[i] < b[i])
  {
    if |a| == 0 || |b| == 0 || a[0] != b[0] {
      PartAtTheStart(a, b);
    } else {
      LessMeans(a[1..], b[1..]);
      if Less(a, b) {
        var i :| 0 <= i <= |a| - 1 && i < |b| - 1 && a[1..][..i] == b[1..][..i]
            && (i == |a| - 1 || a[1..][i] < b[1..][i]);
        assert a[..i + 1] == [a[0]] + a[1..][..i] && b[..i + 1] == [b[0]] + b[1..][..i];
      }
      if i :| 0 <= i <= |a| && i < |b| && a[..i] == b[..i] && (i == |a| || a[i] < b[i]) {
        assert i > 0;
        assert a[1..][..i - 1] == a[..i][1..] && b[1..][..i - 1] == b[..i][1..];
      }
    }
  }

  lemma PartAtTheStart(a: string, b: string)
    requires |a| == 0 || |b| == 0 || a[0] != b[0]
    ensures Less(a, b) <==>
              exists i :: 0 <= i <= |a| && i < |b| && a[..i] == b[..i] && (i == |a| || a[i] < b[i])
  {
    if Less(a, b) {
      assert a[..0] == b[..0];
    }
    if i :| 0 < i <= |a| && i < |b| && a[..i] == b[..i] {
      assert a[..i][0] == b[..i][0];
    }
  }

  function NameOrder(): (string, string) -> bool {
    (x, y) => Less(x, y)
  }

  lemma NameOrderIsLinear(s: set<string>)
    ensures Linear(NameOrder(), s)
  {
    forall x, y | x in s && y in s && x != y ensures NameOrder()(x, y) != NameOrder()(y, x) {
      LessIsTotal(x, y);
      if Less(x, y) { LessIsAsymmetric(x, y); }
    }
    forall x, y, z | x in s && y in s && z in s && NameOrder()(x, y) && NameOrder()(y, z) ensures NameOrder()(x, z) {
      LessIsTransitive(x, y, z);
    }
  }
}

/** Sorting a finite set of keys by a strict linear order. */
module Sorting {

  ghost predicate Linear(before: (string, string) -> bool, s: set<string>) {
    && (forall x, y :: x in s && y in s && x != y ==> before(x, y) != before(y, x))
    && (forall x, y, z :: x in s && y in s && z in s && before(x, y) && before(y, z) ==> before(x, z))
  }

  /** `order` lists exactly the members of `s`, each before all later ones. */
  ghost predicate Ordered(before: (string, string) -> bool, s: set<string>, order: seq<string>) {
    && |order| == |s|
    && (forall x :: x in s <==> x in order)
    && (forall i, j :: 0 <= i < j < |order| ==> order[i] != order[j] && before(order[i], order[j]))
  }

  predicate IsFirst(before: (string, string) -> bool, s: set<string>, m: string) {
    m in s && forall x :: x in s && x != m ==> before(m, x)
  }

  lemma {:induction false} FirstExists(before: (string, string) -> bool, s: set<string>)
    requires s != {} && Linear(before, s)
    ensures exists m :: m in s && IsFirst(before, s, m)
  {
    var a :| a in s;
    if s == {a} {
      assert IsFirst(before, s, a);
    } else {
      FirstExists(before, s - {a});
      var m :| m in s - {a} && IsFirst(before, s - {a}, m);
      assert IsFirst(before, s, if before(a, m) then a else m);
    }
  }

  function First(before: (string, string) -> bool, s: set<string>): (m: string)
    requires s != {} && Linear(before, s)
    ensures IsFirst(before, s, m)
  {
    FirstExists(before, s);
    assert forall m, n :: m in s && n in s && IsFirst(before, s, m) && IsFirst(before, s, n) ==> m == n;
    var m :| m in s && IsFirst(before, s, m);
    m
  }

  /** The members of `s` in order: what iterating a BTreeMap yields and what a sort returns. */
  function Sorted(before: (string, string) -> bool, s: set<string>): (r: seq<string>)
    requires Linear(before, s)
    ensures |r| == |s| && forall x :: x in s <==> x in r
  {
    if s == {} then [] else
      var m := First(before, s);
      [m] + Sorted(before, s - {m})
  }

  lemma {:induction false} SortedIsOrdered(before: (string, string) -> bool, s: set<string>)
    requires Linear(before, s)
    ensures Ordered(before, s, Sorted(before, s))
  {
    if s != {} {
      var m := First(before, s);
      SortedIsOrdered(before, s - {m});
      FirstThenOrdered(before, s, m, Sorted(before, s - {m}));
    }
  }

  lemma FirstThenOrdered(before: (string, string) -> bool, s: set<string>, m: string, rest: seq<string>)
    requires IsFirst(before, s, m) && Ordered(before, s - {m}, rest)
    ensures Ordered(before, s, [m] + rest)
  {
    var order := [m] + rest;
    forall j | 0 < j < |order| ensures order[j] in s && order[j] != m {
      assert order[j] == rest[j - 1] && rest[j - 1] in rest;
    }
    forall i, j | 0 <= i < j < |order| ensures order[i] != order[j] && before(order[i], order[j]) {
      if i > 0 {
        assert order[i] == rest[i - 1] && order[j] == rest[j - 1];
      }
    }
  }

  /** In a sorted list the position of a key is the number of keys before it. */
  lemma PositionIsRank(before: (string, string) -> bool, s: set<string>, order: seq<string>, i: nat)
    requires Linear(before, s) && Ordered(before, s, order) && i < |order|
    ensures order[i] in s && |set x | x in s && before(x, order[i]) && x != order[i]| == i
  {
    assert order[i] in order;
    var ahead := set x | x in s && before(x, order[i]) && x != order[i];
    forall x ensures x in ahead <==> x in order[..i] {
      if x in ahead {
        var j :| 0 <= j < |order| && order[j] == x;
        assert j < i;
      }
      if x in order[..i] {
        var j :| 0 <= j < i && order[j] == x;
        assert order[j] in order;
      }
    }
    CountDistinct(order[..i], ahead);
  }

  lemma {:induction false} CountDistinct(q: seq<string>, t: set<string>)
    requires forall i, j :: 0 <= i < j < |q| ==> q[i] != q[j]
    requires forall x :: x in t <==> x in q
    ensures |t| == |q|
  {
    if q == [] {
      assert t == {};
    } else {
      var last := q[|q| - 1];
      assert q == q[..|q| - 1] + [last];
      CountDistinct(q[..|q| - 1], t - {last});
    }
  }

  lemma {:induction false} SubsetIsSmaller(a: set<string>, b: set<string>)
    requires a <= b
    ensures |a| <= |b|
  {
    if a != {} {
      var x :| x in a;
      SubsetIsSmaller(a - {x}, b - {x});
    }
  }
}
