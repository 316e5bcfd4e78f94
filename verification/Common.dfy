/** Types and sequence facts shared by the models. */
module Common {

  datatype Option<+T> = None | Some(value: T)

  type byte = x: int | 0 <= x < 256

  /** The results of f on the elements it accepts, in order. */
  function FilterMap<A, B>(f: A -> Option<B>, s: seq<A>): seq<B> {
    if s == [] then []
    else (if f(s[0]).Some? then [f(s[0]).value] else []) + FilterMap(f, s[1..])
  }

  lemma {:induction false} FilterMapConcat<A, B>(f: A -> Option<B>, a: seq<A>, b: seq<A>)
    ensures FilterMap(f, a + b) == FilterMap(f, a) + FilterMap(f, b)
  {
    if a == [] {
      assert a + b == b;
    } else {
      var ab := a + b;
      assert ab[0] == a[0] && ab[1..] == a[1..] + b;
      FilterMapConcat(f, a[1..], b);
      var head := if f(a[0]).Some? then [f(a[0]).value] else [];
      assert FilterMap(f, ab) == head + FilterMap(f, ab[1..]);
      assert head + (FilterMap(f, a[1..]) + FilterMap(f, b)) == (head + FilterMap(f, a[1..])) + FilterMap(f, b);
    }
  }

  /** What comes out of FilterMap, and only that, is the image of an element that went in. */
  lemma {:induction false} FilterMapMember<A, B>(f: A -> Option<B>, s: seq<A>, y: B)
    ensures y in FilterMap(f, s) <==> exists x :: x in s && f(x) == Some(y)
  {
    if s != [] {
      FilterMapMember(f, s[1..], y);
      assert s == [s[0]] + s[1..];
    }
  }

  /** When f gives y for x alone, y comes out as often as x goes in. */
  lemma {:induction false} FilterMapCount<A, B>(f: A -> Option<B>, s: seq<A>, x: A, y: B)
    requires f(x) == Some(y) && forall z :: z in s && f(z) == Some(y) ==> z == x
    ensures multiset(FilterMap(f, s))[y] == multiset(s)[x]
  {
    if s != [] {
      assert s == [s[0]] + s[1..];
      FilterMapCount(f, s[1..], x, y);
      assert s[0] in s;
    }
  }

  function One<B>(y: Option<B>): seq<B> {
    if y.Some? then [y.value] else []
  }

  lemma FilterMapAround<A, B>(f: A -> Option<B>, l: seq<A>, x: A, r: seq<A>)
    ensures FilterMap(f, l + [x] + r) == FilterMap(f, l) + One(f(x)) + FilterMap(f, r)
  {
    FilterMapConcat(f, l + [x], r);
    FilterMapConcat(f, l, [x]);
    assert FilterMap(f, [x]) == One(f(x));
  }

  lemma MultisetAround<A>(l: seq<A>, x: A, r: seq<A>)
    ensures multiset(l + [x] + r) == multiset(l + r) + multiset{x}
  {
    assert multiset(l + r) == multiset(l) + multiset(r);
  }

  lemma MultisetTail<A>(a: seq<A>)
    requires a != []
    ensures multiset(a[1..]) == multiset(a) - multiset{a[0]}
  {
    MultisetAround([], a[0], a[1..]);
    assert a == [] + [a[0]] + a[1..] && [] + a[1..] == a[1..];
  }

  lemma SplitAt<A>(b: seq<A>, x: A) returns (l: seq<A>, r: seq<A>)
    requires x in b
    ensures b == l + [x] + r
  {
    var i :| 0 <= i < |b| && b[i] == x;
    l, r := b[..i], b[i + 1..];
  }

  lemma PermutationSplit<A>(a: seq<A>, b: seq<A>) returns (l: seq<A>, r: seq<A>)
    requires multiset(a) == multiset(b) && a != []
    ensures b == l + [a[0]] + r
    ensures multiset(a[1..]) == multiset(l + r)
  {
    assert a[0] in multiset(b);
    l, r := SplitAt(b, a[0]);
    MultisetAround(l, a[0], r);
    MultisetTail(a);
  }

  /** The order in which FilterMap visits the elements does not matter. */
  lemma {:induction false} FilterMapPermutation<A, B>(f: A -> Option<B>, a: seq<A>, b: seq<A>)
    requires multiset(a) == multiset(b)
    ensures multiset(FilterMap(f, a)) == multiset(FilterMap(f, b))
  {
    if a == [] {
      assert |multiset(b)| == |b| == 0;
    } else {
      var l, r := PermutationSplit(a, b);
      FilterMapPermutation(f, a[1..], l + r);
      FilterMapAround(f, l, a[0], r);
      FilterMapConcat(f, l, r);
      var image, rest := FilterMap(f, a[1..]), One(f(a[0]));
      assert FilterMap(f, a) == rest + image;
      assert multiset(image) == multiset(FilterMap(f, l)) + multiset(FilterMap(f, r));
    }
  }

  /** Two passes in a row are one pass when h does on each element what f and then g do. */
  lemma {:induction false} FilterMapCompose<A, B, C>(f: A -> Option<B>, g: B -> Option<C>, h: A -> Option<C>, s: seq<A>)
    requires forall x :: x in s ==> h(x) == if f(x).Some? then g(f(x).value) else None
    ensures FilterMap(h, s) == FilterMap(g, FilterMap(f, s))
  {
    if s != [] {
      FilterMapCompose(f, g, h, s[1..]);
      var head := if f(s[0]).Some? then [f(s[0]).value] else [];
      assert s[0] in s;
      FilterMapConcat(g, head, FilterMap(f, s[1..]));
      if f(s[0]).Some? {
        assert FilterMap(g, head) == if g(head[0]).Some? then [g(head[0]).value] else [];
      }
    }
  }

  lemma {:induction false} FilterMapNothing<A, B>(f: A -> Option<B>, s: seq<A>)
    requires forall x :: x in s ==> f(x) == None
    ensures FilterMap(f, s) == []
  {
    if s != [] {
      assert s[0] in s;
      FilterMapNothing(f, s[1..]);
    }
  }
}
