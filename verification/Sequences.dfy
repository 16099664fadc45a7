/** Facts about sequences that several modules use. */
module Sequences {

  lemma Associate<T>(a: seq<T>, b: seq<T>, c: seq<T>)
    ensures a + b + c == a + (b + c)
  {
  }

  lemma Rejoin<T>(front: seq<T>, s: seq<T>, n: nat)
    requires n <= |s|
    ensures front + s[..n] + s[n..] == front + s
  {
  }

  lemma Regroup<T>(took: seq<T>, rest: seq<T>, end: seq<T>, was: seq<T>, now: seq<T>, put: seq<T>, puts: seq<T>)
    requires took + now == was + put && rest + end == now + puts
    ensures (took + rest) + end == was + (put + puts)
  {
    assert (took + rest) + end == took + (rest + end);
    assert took + (now + puts) == (took + now) + puts;
  }

  lemma CountHead<T>(s: seq<T>, x: T)
    requires s != []
    ensures multiset(s)[x] == multiset(s[1..])[x] + if s[0] == x then 1 else 0
  {
    assert s == [s[0]] + s[1..];
  }
}
