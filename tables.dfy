/**
  What the SQL gateways do with a table, stated on sequences of rows in
  insertion order: `where … [0]` is the first matching row, `where` is a
  filter, `limit/offset` is a window.
 */
module Tables {
  import opened Errors

  /** The index of the first element satisfying `p`: `result[0]` of a filtered select. */
  function FirstIndex<T>(s: seq<T>, p: T -> bool): (r: Option<nat>)
    ensures r.None? <==> forall i :: 0 <= i < |s| ==> !p(s[i])
    ensures r.Some? ==> r.value < |s| && p(s[r.value])
    ensures r.Some? ==> forall j :: 0 <= j < r.value ==> !p(s[j])
  {
    if s == [] then None
    else if p(s[0]) then Some(0)
    else
      match FirstIndex(s[1..], p)
      case None => None
      case Some(k) => Some(k + 1)
  }

  /** The rows satisfying `p`, in table order: a select with a `where` clause. */
  function Filter<T(!new)>(s: seq<T>, p: T -> bool): (r: seq<T>)
    ensures |r| <= |s|
    ensures forall i :: 0 <= i < |r| ==> p(r[i])
    ensures forall x :: x in r <==> x in s && p(x)
  {
    if s == [] then []
    else
      (if p(s[0]) then [s[0]] else []) + Filter(s[1..], p)
  }

  lemma {:induction false} FilterAppend<T(!new)>(s: seq<T>, x: T, p: T -> bool)
    ensures Filter(s + [x], p) == Filter(s, p) + (if p(x) then [x] else [])
  {
    if s == [] {
      assert s + [x] == [x];
    } else {
      var head := if p(s[0]) then [s[0]] else [];
      var tail := if p(x) then [x] else [];
      assert (s + [x])[0] == s[0];
      assert (s + [x])[1..] == s[1..] + [x];
      FilterAppend(s[1..], x, p);
      calc {
        Filter(s + [x], p);
        head + Filter(s[1..] + [x], p);
        head + (Filter(s[1..], p) + tail);
        (head + Filter(s[1..], p)) + tail;
        Filter(s, p) + tail;
      }
    }
  }

  /** A filter keeps every copy of a row it selects and none of the others. */
  lemma {:induction false} FilterMultiset<T(!new)>(s: seq<T>, p: T -> bool, x: T)
    ensures multiset(Filter(s, p))[x] == if p(x) then multiset(s)[x] else 0
  {
    if s != [] {
      assert s == [s[0]] + s[1..];
      FilterMultiset(s[1..], p, x);
    }
  }

  /** The concatenation of `f` over `s`, in order: how a join lists its rows. */
  function FlatMap<T, U(!new)>(s: seq<T>, f: T -> seq<U>): (r: seq<U>)
    ensures forall y :: y in r <==> exists i :: 0 <= i < |s| && y in f(s[i])
  {
    if s == [] then []
    else
      var rest := FlatMap(s[1..], f);
      assert forall y :: y in rest <==> exists i :: 1 <= i < |s| && y in f(s[i]) by {
        forall y ensures y in rest <==> exists i :: 1 <= i < |s| && y in f(s[i]) {
          if y in rest {
            var k :| 0 <= k < |s[1..]| && y in f(s[1..][k]);
            assert y in f(s[k + 1]);
          }
          if exists i :: 1 <= i < |s| && y in f(s[i]) {
            var i :| 1 <= i < |s| && y in f(s[i]);
            assert s[1..][i - 1] == s[i];
          }
        }
      }
      f(s[0]) + rest
  }

  /** `.map(f)` over a result set. */
  function Map<T, U>(s: seq<T>, f: T -> U): (r: seq<U>)
    ensures |r| == |s|
    ensures forall i :: 0 <= i < |s| ==> r[i] == f(s[i])
  {
    seq(|s|, i requires 0 <= i < |s| => f(s[i]))
  }

  function Min(a: int, b: int): int { if a <= b then a else b }

  function Max(a: int, b: int): int { if a <= b then b else a }

  /** The offset of a 1-based page: `limit * (page - 1)`. */
  function Offset(limit: nat, page: int): int {
    limit * (page - 1)
  }

  /**
    Stands in for the database's syntax-error message for a negative OFFSET;
    MySQL's own text quotes the offending value.
   */
  const NEGATIVE_OFFSET := "syntax error near OFFSET"

  /**
    `.limit(limit).offset(limit * (page - 1))`. The database refuses a negative
    offset, which the gateways report as an InternalServerError.
   */
  function Window<T>(s: seq<T>, limit: nat, page: int): (r: Result<seq<T>>)
    ensures r.Err? <==> Offset(limit, page) < 0
    ensures limit > 0 ==> (r.Err? <==> page < 1)
    ensures r.Err? ==> r.error == InternalServer(NEGATIVE_OFFSET)
    ensures r.Ok? ==> |r.value| == Min(limit, Max(0, |s| - Offset(limit, page)))
    ensures r.Ok? ==> forall i :: 0 <= i < |r.value| ==>
                        Offset(limit, page) + i < |s| && r.value[i] == s[Offset(limit, page) + i]
  {
    var offset := Offset(limit, page);
    if offset < 0 then
      Err(InternalServer(NEGATIVE_OFFSET))
    else if offset >= |s| then Ok([])
    else Ok(s[offset..Min(offset + limit, |s|)])
  }
}
