/**
 * The order in which additional headers are written (post.go:212-219): the keys of a map, in
 * whatever order they come, sorted as strings.
 */
module SortedNames {
  predicate AtMost(a: string, b: string) {
    a == "" || (b != "" && (a[0] < b[0] || (a[0] == b[0] && AtMost(a[1..], b[1..]))))
  }

  lemma {:induction false} AtMostIsTotal(a: string, b: string)
    ensures AtMost(a, b) || AtMost(b, a)
    ensures AtMost(a, b) && AtMost(b, a) ==> a == b
    decreases |a|
  {
    if a == "" || b == "" {
    } else if a[0] == b[0] {
      AtMostIsTotal(a[1..], b[1..]);
      assert a == [a[0]] + a[1..] && b == [b[0]] + b[1..];
    }
  }

  lemma {:induction false} AtMostIsTransitive(a: string, b: string, c: string)
    requires AtMost(a, b) && AtMost(b, c)
    ensures AtMost(a, c)
    decreases |a|
  {
    if a == "" || a[0] < b[0] || b[0] < c[0] {
    } else {
      AtMostIsTransitive(a[1..], b[1..], c[1..]);
    }
  }

  predicate Ordered(names: seq<string>) {
    forall i, j :: 0 <= i < j < |names| ==> AtMost(names[i], names[j]) && names[i] != names[j]
  }

  /** `names` are the elements of `all`, in order and each once. */
  ghost predicate Lists(names: seq<string>, all: set<string>) {
    Ordered(names) && forall n :: n in names <==> n in all
  }

  function Insert(n: string, names: seq<string>): seq<string> {
    if names == [] || AtMost(n, names[0]) then [n] + names else [names[0]] + Insert(n, names[1..])
  }

  lemma {:induction false} InsertAdds(n: string, names: seq<string>)
    ensures forall x :: x in Insert(n, names) <==> x == n || x in names
  {
    if names == [] || AtMost(n, names[0]) {
    } else {
      InsertAdds(n, names[1..]);
      assert names == [names[0]] + names[1..];
    }
  }

  lemma OrderedCons(n: string, names: seq<string>)
    requires Ordered(names) && forall x :: x in names ==> AtMost(n, x) && n != x
    ensures Ordered([n] + names)
  {
  }

  lemma {:induction false} InsertOrders(n: string, names: seq<string>)
    requires Ordered(names) && n !in names
    ensures Ordered(Insert(n, names))
  {
    if names == [] {
    } else if AtMost(n, names[0]) {
      forall x | x in names ensures AtMost(n, x) {
        AtMostIsTotal(x, x);
        AtMostIsTransitive(n, names[0], x);
      }
      OrderedCons(n, names);
    } else {
      AtMostIsTotal(n, names[0]);
      InsertOrders(n, names[1..]);
      InsertAdds(n, names[1..]);
      OrderedCons(names[0], Insert(n, names[1..]));
    }
  }

  lemma InsertLists(n: string, names: seq<string>, all: set<string>)
    requires Lists(names, all) && n !in all
    ensures Lists(Insert(n, names), all + {n})
  {
    InsertOrders(n, names);
    InsertAdds(n, names);
  }

  lemma LeastIsFirst(names: seq<string>, all: set<string>, n: string)
    requires Lists(names, all) && n in all
    ensures names != [] && AtMost(names[0], n)
  {
    AtMostIsTotal(n, n);
    var i :| 0 <= i < |names| && names[i] == n;
  }

  lemma TailLists(names: seq<string>, all: set<string>)
    requires Lists(names, all) && names != []
    ensures Lists(names[1..], all - {names[0]})
  {
    assert names == [names[0]] + names[1..];
  }

  /** A set has one ordered list. */
  lemma {:induction false} ListIsUnique(a: seq<string>, b: seq<string>, all: set<string>)
    requires Lists(a, all) && Lists(b, all)
    ensures a == b
    decreases |a|
  {
    if a == [] {
      if b != [] { LeastIsFirst(a, all, b[0]); }
    } else {
      assert a[0] in all;
      LeastIsFirst(b, all, a[0]);
      LeastIsFirst(a, all, b[0]);
      AtMostIsTotal(a[0], b[0]);
      TailLists(a, all);
      TailLists(b, all);
      ListIsUnique(a[1..], b[1..], all - {a[0]});
      assert a == [a[0]] + a[1..] && b == [b[0]] + b[1..];
    }
  }

  ghost function Sorted(all: set<string>): (names: seq<string>)
    ensures Lists(names, all)
  {
    if all == {} then []
    else
      var n :| n in all;
      var rest := Sorted(all - {n});
      InsertLists(n, rest, all - {n});
      assert all - {n} + {n} == all;
      Insert(n, rest)
  }

  /** The keys in order, whatever order they are taken in. */
  method SortNames(all: set<string>) returns (names: seq<string>)
    ensures names == Sorted(all)
  {
    names := [];
    var rest := all;
    while rest != {}
      invariant rest <= all && Lists(names, all - rest)
      decreases rest
    {
      var n :| n in rest;
      InsertLists(n, names, all - rest);
      assert all - rest + {n} == all - (rest - {n});
      names, rest := Insert(n, names), rest - {n};
    }
    assert all - {} == all;
    ListIsUnique(names, Sorted(all), all);
  }
}
