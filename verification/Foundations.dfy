/** Types and finite sums shared by every part of the model. */
module Foundations {

  /** A row id. Ids are drawn from one growing counter, so an id is never reused. */
  type Id = nat

  /** An instant, in milliseconds. */
  type Time = int

  datatype Option<+T> = None | Some(value: T) {
    function GetOr(default: T): T {
      match this
      case Some(v) => v
      case None => default
    }
  }

  /** How a request is refused, or fails. */
  datatype Error =
    | BadRequest
    | Unauthorized
    | Forbidden
    | NotFound
    | Conflict(code: ConflictCode)
    | TooLarge
    | UnsupportedType
    | ServerError

  datatype ConflictCode = SubjectExists | SubjectHidden | SubjectInUse | EmailTaken | KeyTaken

  datatype Result<+T> = Ok(value: T) | Err(error: Error) {
    predicate IsFailure() { Err? }

    function PropagateFailure<U>(): Result<U>
      requires Err?
    {
      Err(error)
    }

    function Extract(): T
      requires Ok?
    {
      value
    }
  }

  function Need(condition: bool, error: Error): Result<()> {
    if condition then Ok(()) else Err(error)
  }

  // ----- Sums over finite sets -----

  ghost function Sum<T(!new)>(s: set<T>, f: T -> int): int
    decreases |s|
  {
    if s == {} then 0 else var x :| x in s; f(x) + Sum(s - {x}, f)
  }

  /** The value of a sum does not depend on which element is taken first. */
  lemma {:induction false} SumPick<T(!new)>(s: set<T>, f: T -> int, x: T)
    requires x in s
    ensures Sum(s, f) == f(x) + Sum(s - {x}, f)
    decreases |s|
  {
    var y :| y in s && Sum(s, f) == f(y) + Sum(s - {y}, f);
    if y != x {
      SumPick(s - {y}, f, x);
      SumPick(s - {x}, f, y);
      assert s - {y} - {x} == s - {x} - {y};
    }
  }

  lemma {:induction false} SumUnion<T(!new)>(a: set<T>, b: set<T>, f: T -> int)
    requires a !! b
    ensures Sum(a + b, f) == Sum(a, f) + Sum(b, f)
    decreases |a|
  {
    if a == {} {
      assert a + b == b;
    } else {
      var x :| x in a;
      SumPick(a, f, x);
      SumPick(a + b, f, x);
      assert a + b - {x} == (a - {x}) + b;
      SumUnion(a - {x}, b, f);
    }
  }

  lemma {:induction false} SumSame<T(!new)>(s: set<T>, f: T -> int, g: T -> int)
    requires forall x <- s :: f(x) == g(x)
    ensures Sum(s, f) == Sum(s, g)
    decreases |s|
  {
    if s != {} {
      var x :| x in s;
      SumPick(s, f, x);
      SumPick(s, g, x);
      SumSame(s - {x}, f, g);
    }
  }

  lemma {:induction false} SumAtMost<T(!new)>(s: set<T>, f: T -> int, bound: nat)
    requires forall x <- s :: 0 <= f(x) <= bound
    ensures 0 <= Sum(s, f) <= |s| * bound
    decreases |s|
  {
    if s != {} {
      var x :| x in s;
      SumPick(s, f, x);
      SumAtMost(s - {x}, f, bound);
      hide Sum;
      OneMoreTime(|s - {x}|, bound);
      assert |s| == |s - {x}| + 1;
    }
  }

  lemma OneMoreTime(n: nat, bound: nat)
    ensures (n + 1) * bound == n * bound + bound
  {
  }

  function Such<T>(s: set<T>, p: T -> bool): set<T> {
    set x | x in s && p(x)
  }

  /** A cardinality is the sum of an indicator. */
  lemma {:induction false} SumCounts<T(!new)>(s: set<T>, f: T -> int, p: T -> bool)
    requires forall x <- s :: f(x) == if p(x) then 1 else 0
    ensures Sum(s, f) == |Such(s, p)|
    decreases |s|
  {
    if s != {} {
      var x :| x in s;
      SumPick(s, f, x);
      SumCounts(s - {x}, f, p);
      var rest := Such(s - {x}, p);
      assert Such(s, p) == if p(x) then rest + {x} else rest;
    }
  }

  /** The members of `s` whose key is `k`. */
  function Having<T, K(==)>(s: set<T>, keyOf: T -> K, k: K): (r: set<T>) {
    set x | x in s && keyOf(x) == k
  }

  /** Summing key by key loses nothing, provided every key is among those summed. */
  lemma {:induction false} SumByKey<T(!new), K(!new)>(s: set<T>, f: T -> int, keyOf: T -> K, keys: set<K>)
    requires forall x <- s :: keyOf(x) in keys
    ensures Sum(s, f) == Sum(keys, k => Sum(Having(s, keyOf, k), f))
    decreases |keys|
  {
    var perKey := (k: K) => Sum(Having(s, keyOf, k), f);
    if keys == {} {
      assert s == {};
    } else {
      var k :| k in keys;
      var here := Having(s, keyOf, k);
      var rest := s - here;
      SumPick(keys, perKey, k);
      assert here + rest == s;
      SumUnion(here, rest, f);
      SumByKey(rest, f, keyOf, keys - {k});
      var restPerKey := (j: K) => Sum(Having(rest, keyOf, j), f);
      forall j <- keys - {k} ensures restPerKey(j) == perKey(j) {
        assert Having(rest, keyOf, j) == Having(s, keyOf, j);
      }
      SumSame(keys - {k}, restPerKey, perKey);
    }
  }

  // ----- Row lists: what a query returns, in whatever order -----

  /** `rows` lists the members of `s`, each exactly once. */
  ghost predicate Lists<T(!new)>(rows: seq<T>, s: set<T>) {
    && (forall i, j :: 0 <= i < j < |rows| ==> rows[i] != rows[j])
    && (forall x :: x in s <==> x in rows)
  }

  function SumSeq<T>(rows: seq<T>, f: T -> int): int {
    if rows == [] then 0 else SumSeq(rows[..|rows| - 1], f) + f(rows[|rows| - 1])
  }

  function Filter<T>(rows: seq<T>, p: T -> bool): (r: seq<T>)
  {
    if rows == [] then []
    else
      var front := Filter(rows[..|rows| - 1], p);
      if p(rows[|rows| - 1]) then front + [rows[|rows| - 1]] else front
  }

  /** A list's front lists all but its last row. */
  lemma ListsFront<T(!new)>(rows: seq<T>, s: set<T>)
    requires Lists(rows, s) && rows != []
    ensures rows[|rows| - 1] in s
    ensures Lists(rows[..|rows| - 1], s - {rows[|rows| - 1]})
  {
    var last := rows[|rows| - 1];
    var front := rows[..|rows| - 1];
    forall x ensures x in s - {last} <==> x in front {
      if x in rows && x != last {
        var i :| 0 <= i < |rows| && rows[i] == x;
        assert front[i] == x;
      }
    }
  }

  /** A sum over a row list is the sum over the set it lists: row order is immaterial. */
  lemma {:induction false} SumSeqIsSum<T(!new)>(rows: seq<T>, s: set<T>, f: T -> int)
    requires Lists(rows, s)
    ensures SumSeq(rows, f) == Sum(s, f)
    decreases |rows|
  {
    if rows == [] {
      assert s == {};
    } else {
      ListsFront(rows, s);
      SumSeqIsSum(rows[..|rows| - 1], s - {rows[|rows| - 1]}, f);
      SumPick(s, f, rows[|rows| - 1]);
    }
  }

  lemma {:induction false} ListsLength<T(!new)>(rows: seq<T>, s: set<T>)
    requires Lists(rows, s)
    ensures |rows| == |s|
    decreases |rows|
  {
    if rows == [] {
      assert s == {};
    } else {
      ListsFront(rows, s);
      ListsLength(rows[..|rows| - 1], s - {rows[|rows| - 1]});
    }
  }

  lemma {:induction false} FilterLists<T(!new)>(rows: seq<T>, s: set<T>, p: T -> bool)
    requires Lists(rows, s)
    ensures Lists(Filter(rows, p), Such(s, p))
    decreases |rows|
  {
    if rows == [] {
      assert s == {};
    } else {
      var last := rows[|rows| - 1];
      ListsFront(rows, s);
      FilterLists(rows[..|rows| - 1], s - {last}, p);
      var front := Filter(rows[..|rows| - 1], p);
      var kept := Filter(rows, p);
      assert kept == if p(last) then front + [last] else front;
      forall x ensures x in s && p(x) <==> x in kept {
        assert x in s - {last} && p(x) <==> x in front;
      }
      assert last !in front;
    }
  }
}
