/** `gen_query_params` (src/http_api.rs:1124-1143): the query string of a REST call,
    built from `(key, value)` pairs in which the value may be absent. Present pairs are
    written `key=value`, verbatim and without percent-encoding; the first is preceded
    by `?`, every later one by `&`. */
module QueryParams {
  import opened Wrappers

  /** One `(key, value)` argument of `gen_query_params`. */
  type Param = (string, Option<string>)

  /** The pairs that have a value, in input order. */
  function Present(params: seq<Param>): (r: seq<(string, string)>)
    ensures |r| <= |params|
  {
    if |params| == 0 then []
    else
      var last := params[|params| - 1];
      Present(params[..|params| - 1]) + (if last.1.Some? then [(last.0, last.1.value)] else [])
  }

  /** `key=value`. */
  function Pair(p: (string, string)): string {
    p.0 + "=" + p.1
  }

  /** Present pairs joined as the loop joins them: `?` before the first, `&` before
      each later one. */
  function Joined(pairs: seq<(string, string)>): string {
    if |pairs| == 0 then ""
    else
      Joined(pairs[..|pairs| - 1]) + (if |pairs| == 1 then "?" else "&") + Pair(pairs[|pairs| - 1])
  }

  /** The query `gen_query_params` returns. */
  function Query(params: seq<Param>): string {
    Joined(Present(params))
  }

  /** The `&key=value` segments of `pairs`, read from the front. */
  function Tail(pairs: seq<(string, string)>): string {
    if |pairs| == 0 then "" else "&" + Pair(pairs[0]) + Tail(pairs[1..])
  }

  /** Sum of `|key| + |value| + 2` over the present pairs. */
  function PresentLength(params: seq<Param>): nat {
    if |params| == 0 then 0
    else
      var last := params[|params| - 1];
      PresentLength(params[..|params| - 1])
        + (if last.1.Some? then |last.0| + |last.1.value| + 2 else 0)
  }

  lemma JoinedEmptyIff(pairs: seq<(string, string)>)
    ensures Joined(pairs) == "" <==> |pairs| == 0
  {
    if |pairs| > 0 {
      var sep: string := if |pairs| == 1 then "?" else "&";
      assert |Joined(pairs)| >= |sep| == 1;
    }
  }

  /** `gen_query_params`: a loop over the pairs that skips absent values and appends
      each present one with the separator the query so far calls for. */
  method GenQueryParams(params: seq<Param>) returns (query: string)
    ensures query == Query(params)
  {
    query := "";
    for i := 0 to |params|
      invariant query == Query(params[..i])
    {
      assert params[..i + 1][..i] == params[..i];
      var (key, value) := params[i];
      match value {
        case None =>
          assert Present(params[..i + 1]) == Present(params[..i]);
        case Some(v) =>
          var prev := Present(params[..i]);
          var pairs := Present(params[..i + 1]);
          assert pairs == prev + [(key, v)];
          assert pairs[..|pairs| - 1] == prev;
          JoinedEmptyIff(prev);
          if |query| == 0 {
            query := query + "?" + key + "=" + v;
          } else {
            query := query + "&" + key + "=" + v;
          }
      }
    }
    assert params[..|params|] == params;
  }

  // ----- what the query promises -----

  /** Exactly the pairs that have a value are kept: every kept pair is an input pair
      with its value, and every input pair with a value is kept. */
  lemma {:induction false} PresentMembers(params: seq<Param>)
    ensures forall p :: p in Present(params) ==> (p.0, Some(p.1)) in params
    ensures forall q :: q in params && q.1.Some? ==> (q.0, q.1.value) in Present(params)
  {
    if |params| > 0 {
      var init := params[..|params| - 1];
      PresentMembers(init);
      assert params == init + [params[|params| - 1]];
    }
  }

  /** Absent values add nothing, wherever they stand. */
  lemma {:induction false} PresentAppend(a: seq<Param>, b: seq<Param>)
    ensures Present(a + b) == Present(a) + Present(b)
    decreases |b|
  {
    if |b| == 0 {
      assert a + b == a;
    } else {
      assert (a + b)[..|a + b| - 1] == a + b[..|b| - 1];
      PresentAppend(a, b[..|b| - 1]);
    }
  }

  lemma QueryIgnoresAbsent(a: seq<Param>, key: string, b: seq<Param>)
    ensures Query(a + [(key, None)] + b) == Query(a + b)
  {
    var absent: seq<Param> := [(key, None)];
    assert absent[..0] == [];
    assert Present(absent) == [];
    PresentAppend(a + absent, b);
    PresentAppend(a, absent);
    PresentAppend(a, b);
    assert Present(a + absent) == Present(a);
    assert Present(a + absent + b) == Present(a + b);
    assert a + [(key, None)] + b == a + absent + b;
  }

  /** The query is empty exactly when no pair has a value. */
  lemma {:induction false} QueryEmptyIff(params: seq<Param>)
    ensures Query(params) == "" <==> forall i :: 0 <= i < |params| ==> params[i].1.None?
  {
    JoinedEmptyIff(Present(params));
    PresentEmptyIff(params);
  }

  lemma {:induction false} PresentEmptyIff(params: seq<Param>)
    ensures |Present(params)| == 0 <==> forall i :: 0 <= i < |params| ==> params[i].1.None?
  {
    if |params| > 0 {
      var init := params[..|params| - 1];
      PresentEmptyIff(init);
      assert forall i :: 0 <= i < |init| ==> init[i] == params[i];
    }
  }

  /** Read from the front, the query is `?` and the first present pair, then `&` and
      each later present pair, in input order. */
  lemma {:induction false} JoinedFromFront(pairs: seq<(string, string)>)
    requires |pairs| > 0
    ensures Joined(pairs) == "?" + Pair(pairs[0]) + Tail(pairs[1..])
  {
    if |pairs| == 1 {
      assert pairs[1..] == [];
    } else {
      var init := pairs[..|pairs| - 1];
      JoinedFromFront(init);
      assert init[0] == pairs[0];
      TailSnoc(pairs[1..|pairs| - 1], pairs[|pairs| - 1]);
      assert init[1..] == pairs[1..|pairs| - 1];
      assert pairs[1..|pairs| - 1] + [pairs[|pairs| - 1]] == pairs[1..];
    }
  }

  lemma {:induction false} TailSnoc(pairs: seq<(string, string)>, p: (string, string))
    ensures Tail(pairs + [p]) == Tail(pairs) + "&" + Pair(p)
  {
    if |pairs| == 0 {
      assert pairs + [p] == [p];
    } else {
      assert (pairs + [p])[1..] == pairs[1..] + [p];
      TailSnoc(pairs[1..], p);
    }
  }

  /** One more pair is written after the others, behind `?` if it is the first and `&`
      otherwise. */
  lemma JoinedSnoc(pairs: seq<(string, string)>, p: (string, string))
    ensures Joined(pairs + [p]) == Joined(pairs) + (if |pairs| == 0 then "?" else "&") + Pair(p)
  {
    var more := pairs + [p];
    assert more[..|more| - 1] == pairs;
    assert more[|more| - 1] == p;
  }

  /** Each present pair costs its key, its value and two characters (`?` or `&`, and `=`). */
  lemma {:induction false} QueryLength(params: seq<Param>)
    ensures |Query(params)| == PresentLength(params)
  {
    JoinedLength(params);
  }

  lemma {:induction false} JoinedLength(params: seq<Param>)
    ensures |Joined(Present(params))| == PresentLength(params)
  {
    if |params| > 0 {
      var init := params[..|params| - 1];
      var last := params[|params| - 1];
      JoinedLength(init);
      if last.1.Some? {
        var pairs := Present(params);
        assert pairs == Present(init) + [(last.0, last.1.value)];
        assert pairs[..|pairs| - 1] == Present(init);
        var sep: string := if |pairs| == 1 then "?" else "&";
        assert Joined(pairs) == Joined(Present(init)) + sep + Pair((last.0, last.1.value));
        assert |Pair((last.0, last.1.value))| == |last.0| + |last.1.value| + 1;
        assert |Joined(pairs)| == |Joined(Present(init))| + |last.0| + |last.1.value| + 2;
        assert PresentLength(params) == PresentLength(init) + |last.0| + |last.1.value| + 2;
      } else {
        assert Present(params) == Present(init);
      }
    }
  }

  /** One more pair without a value leaves the query as it is. */
  lemma QuerySnocAbsent(params: seq<Param>, key: string)
    ensures Query(params + [(key, None)]) == Query(params)
  {
    var more := params + [(key, None)];
    assert more[..|more| - 1] == params;
    assert Present(more) == Present(params);
  }

  /** One more pair with a value is appended after `?` if the query so far is empty and
      after `&` otherwise. */
  lemma QuerySnocPresent(params: seq<Param>, key: string, value: string)
    ensures Query(params + [(key, Some(value))])
      == Query(params) + (if Query(params) == "" then "?" else "&") + Pair((key, value))
  {
    var more := params + [(key, Some(value))];
    assert more[..|more| - 1] == params;
    assert Present(more) == Present(params) + [(key, value)];
    JoinedEmptyIff(Present(params));
    JoinedSnoc(Present(params), (key, value));
  }

  /** Two pairs, both present: `?k1=v1&k2=v2`. */
  lemma QueryOfTwo(k1: string, v1: string, k2: string, v2: string)
    ensures Query([(k1, Some(v1)), (k2, Some(v2))]) == "?" + k1 + "=" + v1 + "&" + k2 + "=" + v2
  {
    var none: seq<Param> := [];
    QuerySnocPresent(none, k1, v1);
    assert none + [(k1, Some(v1))] == [(k1, Some(v1))];
    QuerySnocPresent([(k1, Some(v1))], k2, v2);
    assert [(k1, Some(v1))] + [(k2, Some(v2))] == [(k1, Some(v1)), (k2, Some(v2))];
  }

  /** Two pairs, the first absent: the second opens the query with `?`. */
  lemma QueryOfSecond(k1: string, k2: string, v2: string)
    ensures Query([(k1, None), (k2, Some(v2))]) == "?" + k2 + "=" + v2
  {
    var none: seq<Param> := [];
    QuerySnocAbsent(none, k1);
    assert none + [(k1, None)] == [(k1, None)];
    QuerySnocPresent([(k1, None)], k2, v2);
    assert [(k1, None)] + [(k2, Some(v2))] == [(k1, None), (k2, Some(v2))];
  }
}
