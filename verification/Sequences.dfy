/** Sequences without repetitions, shared by the lists and queues. */
module Sequences {
  ghost predicate Distinct<T>(s: seq<T>) {
    s == [] || (s[0] !in s[1..] && Distinct(s[1..]))
  }

  lemma {:induction false} DistinctConcat<T>(s: seq<T>, t: seq<T>)
    ensures Distinct(s + t) <==> Distinct(s) && Distinct(t) && (forall x :: x in s ==> x !in t)
  {
    if s == [] {
      assert s + t == t;
    } else {
      assert (s + t)[1..] == s[1..] + t && (s + t)[0] == s[0];
      DistinctConcat(s[1..], t);
      assert forall x :: x in s <==> x == s[0] || x in s[1..];
    }
  }

  ghost function Elements<T>(s: seq<T>): set<T> {
    set x | x in s
  }

  /** Taking one element out of a list (rt_list_remove). */
  function Without<T(==)>(list: seq<T>, t: T): seq<T> {
    if list == [] then [] else if list[0] == t then list[1..] else [list[0]] + Without(list[1..], t)
  }

  lemma ConsFacts<T>(x: T, rest: seq<T>)
    ensures Elements([x] + rest) == {x} + Elements(rest)
    ensures Distinct([x] + rest) <==> x !in Elements(rest) && Distinct(rest)
  {
    assert ([x] + rest)[1..] == rest;
  }

  lemma {:induction false} WithoutFacts<T>(list: seq<T>, t: T)
    requires Distinct(list)
    ensures Elements(Without(list, t)) == Elements(list) - {t} && Distinct(Without(list, t))
  {
    if list != [] {
      assert list == [list[0]] + list[1..];
      ConsFacts(list[0], list[1..]);
      if list[0] != t {
        WithoutFacts(list[1..], t);
        ConsFacts(list[0], Without(list[1..], t));
      }
    }
  }

  lemma {:induction false} NotWithout<T>(list: seq<T>, t: T)
    requires t !in Elements(list)
    ensures Without(list, t) == list
  {
    if list != [] {
      assert list[0] in Elements(list);
      assert forall x :: x in list[1..] ==> x in Elements(list);
      NotWithout(list[1..], t);
    }
  }

  lemma CutBehind<T>(list: seq<T>, j: nat)
    requires j + 1 < |list|
    ensures [list[0]] + (list[1..][..j] + list[1..][j + 1..]) == list[..j + 1] + list[j + 2..]
  {
    assert list[1..][..j] == list[1..j + 1] && list[1..][j + 1..] == list[j + 2..];
    assert [list[0]] + list[1..j + 1] == list[..j + 1];
  }

  lemma {:induction false} WithoutIs<T>(list: seq<T>, t: T) returns (i: nat)
    requires t in list
    ensures i < |list| && list[i] == t && Without(list, t) == list[..i] + list[i + 1..]
  {
    if list[0] == t {
      i := 0;
    } else {
      var j := WithoutIs(list[1..], t);
      i := j + 1;
      CutBehind(list, j);
    }
  }

  lemma {:induction false} WithoutInserted<T>(front: seq<T>, t: T, back: seq<T>)
    requires t !in front
    ensures Without(front + [t] + back, t) == front + back
  {
    var list := front + [t] + back;
    if front == [] {
      assert list[1..] == back && front + back == back;
    } else {
      assert list[0] == front[0] && list[1..] == front[1..] + [t] + back;
      WithoutInserted(front[1..], t, back);
      assert [front[0]] + (front[1..] + back) == front + back;
    }
  }

  lemma HeadFacts<T>(list: seq<T>)
    requires Distinct(list) && list != []
    ensures Elements(list[1..]) == Elements(list) - {list[0]} && Distinct(list[1..]) && list[0] in Elements(list)
  {
    assert forall x :: x in list <==> x == list[0] || x in list[1..];
  }

  lemma {:induction false} DistinctCount<T>(s: seq<T>)
    requires Distinct(s)
    ensures |Elements(s)| == |s|
  {
    if s == [] {
      assert Elements(s) == {};
    } else {
      DistinctCount(s[1..]);
      HeadFacts(s);
    }
  }
}
