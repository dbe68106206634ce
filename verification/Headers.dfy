/** Header maps: the insertion-ordered dictionaries of the program. */
module Headers {
  import opened Wrappers

  type Header = (string, string)
  type HeaderMap = seq<Header>

  function Find(h: HeaderMap, key: string): Option<string> {
    if h == [] then None else if h[0].0 == key then Some(h[0].1) else Find(h[1..], key)
  }

  predicate Has(h: HeaderMap, key: string) { Find(h, key).Some? }

  /** No key occurs twice. */
  predicate IsDict(h: HeaderMap) {
    h == [] || (!Has(h[1..], h[0].0) && IsDict(h[1..]))
  }

  /** h[key] = value: a known key keeps its place, a new one goes last. */
  function Put(h: HeaderMap, key: string, value: string): HeaderMap {
    if h == [] then [(key, value)]
    else if h[0].0 == key then [(key, value)] + h[1..]
    else [h[0]] + Put(h[1..], key, value)
  }

  function PutAll(h: HeaderMap, more: HeaderMap): HeaderMap
    decreases |more|
  {
    if more == [] then h else PutAll(Put(h, more[0].0, more[0].1), more[1..])
  }

  lemma {:induction false} FindPut(h: HeaderMap, key: string, value: string, k: string)
    ensures Find(Put(h, key, value), k) == if k == key then Some(value) else Find(h, k)
  {
    if h != [] {
      assert Put(h, key, value)[1..] == if h[0].0 == key then h[1..] else Put(h[1..], key, value);
      FindPut(h[1..], key, value, k);
    }
  }

  lemma {:induction false} PutPlace(h: HeaderMap, key: string, value: string)
    ensures !Has(h, key) ==> Put(h, key, value) == h + [(key, value)]
    ensures Has(h, key) ==>
      && |Put(h, key, value)| == |h|
      && forall i | 0 <= i < |h| :: Put(h, key, value)[i].0 == h[i].0
    ensures Find(h, key) == Some(value) && IsDict(h) ==> Put(h, key, value) == h
    ensures IsDict(h) ==> IsDict(Put(h, key, value))
  {
    if h != [] {
      PutPlace(h[1..], key, value);
      FindPut(h[1..], key, value, h[0].0);
      assert Put(h, key, value)[1..] == if h[0].0 == key then h[1..] else Put(h[1..], key, value);
    }
  }

  lemma {:induction false} DictHasOnce(a: HeaderMap, x: Header, b: HeaderMap)
    requires IsDict(a + [x] + b)
    ensures !Has(a, x.0)
  {
    if a != [] {
      assert (a + [x] + b)[1..] == a[1..] + [x] + b;
      DictHasOnce(a[1..], x, b);
      FindAppend(a[1..] + [x], b, x.0);
      FindAppend(a[1..], [x], x.0);
    }
  }

  lemma {:induction false} FindAppend(a: HeaderMap, b: HeaderMap, key: string)
    ensures Find(a + b, key) == if Has(a, key) then Find(a, key) else Find(b, key)
  {
    if a == [] {
      assert a + b == b;
    } else {
      assert (a + b)[1..] == a[1..] + b;
      FindAppend(a[1..], b, key);
    }
  }

  /** Inserting the entries of a dictionary one by one, in order, rebuilds it. */
  lemma {:induction false} PutAllRebuilds(a: HeaderMap, b: HeaderMap)
    requires IsDict(a + b)
    ensures PutAll(a, b) == a + b
    decreases |b|
  {
    if b == [] {
      assert a + b == a;
    } else {
      assert a + b == a + [b[0]] + b[1..];
      DictHasOnce(a, b[0], b[1..]);
      PutPlace(a, b[0].0, b[0].1);
      PutAllRebuilds(a + [b[0]], b[1..]);
    }
  }
}
