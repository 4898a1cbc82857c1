/**
 The chained hash table of hash_table.cpp, which maps the mirror servers' IDs to their delays:
 two parallel arrays of buckets that stand for one map, for every key whose bucket index is
 in range.
 */
module HashTables {
  import opened Threads
  import opened MyVectors

  // ---- The hash of a key ------------------------------------------------------------------

  const TWO31: int := 0x8000_0000
  const TWO32: int := 0x1_0000_0000

  /** A 32-bit two's complement result. */
  function Wrap(x: int): (r: int)
    ensures -TWO31 <= r < TWO31 && (r - x) % TWO32 == 0
  {
    (x + TWO31) % TWO32 - TWO31
  }

  /** A byte as C's signed char. */
  function CharValue(c: char): (v: int)
    ensures -128 <= v < 128 && (v - c as int) % 256 == 0
  {
    (c as int + 128) % 256 - 128
  }

  /**
   `hash = ((hash << 5) + hash) + c`, with 32-bit wrap-around at each operation
   (hash_table.cpp:99-100).
   */
  method Hash(key: string) returns (hash: int)
    ensures hash == Wrap(ClosedForm(key))
    ensures hash == Accumulated(key)
  {
    hash := 5381;
    for i := 0 to |key|
      invariant hash == Accumulated(key[..i])
    {
      assert key[..i + 1][..i] == key[..i];
      HashStep(hash, CharValue(key[i]));
      hash := Wrap(Wrap(Wrap(hash * 32) + hash) + CharValue(key[i]));
    }
    assert key[..|key|] == key;
    HashIsClosedForm(key);
  }

  function Accumulated(key: string): int {
    if key == "" then 5381 else Wrap(33 * Accumulated(key[..|key| - 1]) + CharValue(key[|key| - 1]))
  }

  function Pow33(n: nat): nat {
    if n == 0 then 1 else 33 * Pow33(n - 1)
  }

  /** The sum of `c_i * 33^(n-1-i)` over the characters of a key of length `n`. */
  function CharSum(key: string): int {
    if key == "" then 0 else CharValue(key[0]) * Pow33(|key| - 1) + CharSum(key[1..])
  }

  /** `5381 * 33^n + sum c_i * 33^(n-1-i)`. */
  function ClosedForm(key: string): int {
    5381 * Pow33(|key|) + CharSum(key)
  }

  /** Congruent numbers wrap to the same result. */
  lemma WrapSame(x: int, y: int, k: int)
    requires x == y + k * TWO32
    ensures Wrap(x) == Wrap(y)
  {
  }

  lemma WrapIs(x: int) returns (k: int)
    ensures Wrap(x) == x + k * TWO32
  {
    k := -((x + TWO31) / TWO32);
  }

  lemma HashStep(h: int, c: int)
    ensures Wrap(Wrap(Wrap(h * 32) + h) + c) == Wrap(33 * h + c)
  {
    var k := WrapIs(h * 32);
    var l := WrapIs(Wrap(h * 32) + h);
    WrapSame(Wrap(Wrap(h * 32) + h) + c, 33 * h + c, k + l);
  }

  lemma Distribute(a: int, p: int, rest: int, c: int)
    ensures a * (33 * p) + (33 * rest + c) == 33 * (a * p + rest) + c
  {
  }

  lemma {:induction false} CharSumSnoc(key: string, c: char)
    ensures CharSum(key + [c]) == 33 * CharSum(key) + CharValue(c)
  {
    if key == "" {
      assert CharSum([c]) == CharValue(c) * Pow33(0) + CharSum([c][1..]);
    } else {
      var n := |key|;
      assert (key + [c])[1..] == key[1..] + [c] && (key + [c])[0] == key[0];
      CharSumSnoc(key[1..], c);
      assert CharSum(key + [c]) == CharValue(key[0]) * Pow33(n) + CharSum(key[1..] + [c]);
      assert CharSum(key) == CharValue(key[0]) * Pow33(n - 1) + CharSum(key[1..]);
      assert Pow33(n) == 33 * Pow33(n - 1);
      hide CharSum, Pow33, CharValue;
      Distribute(CharValue(key[0]), Pow33(n - 1), CharSum(key[1..]), CharValue(c));
    }
  }

  lemma {:induction false} HashIsClosedForm(key: string)
    ensures Accumulated(key) == Wrap(ClosedForm(key))
  {
    if key != "" {
      var n := |key| - 1;
      HashIsClosedForm(key[..n]);
      assert key == key[..n] + [key[n]];
      CharSumSnoc(key[..n], key[n]);
      var k := WrapIs(ClosedForm(key[..n]));
      WrapSame(33 * Accumulated(key[..n]) + CharValue(key[n]), ClosedForm(key), 33 * k);
    }
  }

  // ---- The bucket of a key ------------------------------------------------------------------

  /** C's remainder, which has the sign of the dividend. */
  function Remainder(x: int, y: int): int
    requires y > 0
  {
    if x >= 0 then x % y else -((-x) % y)
  }

  /** `return hash > 0 ? hash : -hash` (hash_table.cpp:104), where `-INT_MIN` wraps around to itself. */
  function HashOf(key: string): int {
    var h := Accumulated(key);
    if h > 0 then h else Wrap(-h)
  }

  /** hash_table.cpp:23. */
  function IndexOf(key: string, size: int): int
    requires size > 0
  {
    Remainder(HashOf(key), size)
  }

  predicate Good(key: string, size: int)
    requires size > 0
  {
    0 <= IndexOf(key, size) < size
  }

  /**
   The index is in range for every key but those whose sum wraps to -2^31, unless the size divides
   2^31.
   */
  lemma IndexInRange(key: string, size: int)
    requires size > 0
    ensures Good(key, size) <==> Wrap(ClosedForm(key)) != -TWO31 || TWO31 % size == 0
  {
    HashIsClosedForm(key);
  }

  /**
   In range, the index is the absolute value of the wrapped sum modulo the size; out of range it is the
   negative of 2^31 modulo the size.
   */
  lemma IndexIs(key: string, size: int)
    requires size > 0
    ensures var h := Wrap(ClosedForm(key));
            IndexOf(key, size) == if h == -TWO31 then -(TWO31 % size) else (if h < 0 then -h else h) % size
  {
    HashIsClosedForm(key);
    hide ClosedForm, Accumulated;
  }

  /** With the default size of 30 the bad keys are those of one hash, and their index is -8. */
  lemma DefaultSize(key: string)
    ensures Good(key, 30) <==> Accumulated(key) != -TWO31
    ensures !Good(key, 30) ==> IndexOf(key, 30) == -8
  {
    IndexInRange(key, 30);
    HashIsClosedForm(key);
  }

  // ---- A bucket ------------------------------------------------------------------------------

  /**
   Bucket `b` of the table that stands for `m`: keys and entries are parallel, each key is there
   once and belongs here, and every key of `m` that belongs here is there.
   */
  ghost predicate Bucket<T>(ks: seq<string>, es: seq<T>, m: map<string, T>, size: int, b: int)
    requires size > 0
  {
    && |ks| == |es|
    && (forall i, j :: 0 <= i < j < |ks| ==> ks[i] != ks[j])
    && (forall i :: 0 <= i < |ks| ==> IndexOf(ks[i], size) == b && ks[i] in m && m[ks[i]] == es[i])
    && (forall k :: k in m && IndexOf(k, size) == b ==> k in ks)
  }

  lemma BucketInsert<T>(ks: seq<string>, es: seq<T>, m: map<string, T>, size: int, b: int, key: string, ent: T)
    requires size > 0 && Bucket(ks, es, m, size, b) && key !in ks && IndexOf(key, size) == b
    ensures Bucket(ks + [key], es + [ent], m[key := ent], size, b)
  {
    hide IndexOf;
    forall k | k in m[key := ent] && IndexOf(k, size) == b ensures k in ks + [key] {
      assert k == key || k in ks;
    }
  }

  lemma BucketSet<T>(ks: seq<string>, es: seq<T>, m: map<string, T>, size: int, b: int, i: nat, ent: T)
    requires size > 0 && Bucket(ks, es, m, size, b) && i < |ks|
    ensures Bucket(ks, es[i := ent], m[ks[i] := ent], size, b)
  {
    hide IndexOf;
  }

  lemma BucketRemove<T>(ks: seq<string>, es: seq<T>, m: map<string, T>, size: int, b: int, at: nat)
    requires size > 0 && Bucket(ks, es, m, size, b) && at < |ks|
    ensures Bucket(Without(ks, at), Without(es, at), m - {ks[at]}, size, b)
    ensures ks[at] !in Without(ks, at)
  {
    hide IndexOf;
    forall k | k in m - {ks[at]} && IndexOf(k, size) == b ensures k in Without(ks, at) {
      var i :| 0 <= i < |ks| && ks[i] == k;
      assert Without(ks, at)[if i < at then i else i - 1] == k;
    }
  }

  /** A key of another bucket changes nothing here. */
  lemma BucketElsewhere<T>(ks: seq<string>, es: seq<T>, m: map<string, T>, size: int, b: int, key: string, ent: T)
    requires size > 0 && Bucket(ks, es, m, size, b) && IndexOf(key, size) != b
    ensures Bucket(ks, es, m[key := ent], size, b)
  {
    hide IndexOf;
  }

  // ---- The table -----------------------------------------------------------------------------

  datatype Lookup<T> = Found(value: T) | Missing | BadIndex

  class HashTable<T> {
    const size: int
    const keys: array<seq<string>>
    const entries: array<seq<T>>
    ghost var contents: map<string, T>

    ghost predicate Shaped()
    {
      size > 0 && keys.Length == entries.Length == size && keys as object != entries
    }

    ghost predicate Valid()
      reads this, keys, entries
    {
      && Shaped()
      && (forall b :: 0 <= b < size ==> Bucket(keys[b], entries[b], contents, size, b))
      && (forall k :: k in contents ==> Good(k, size))
    }

    constructor (size: int := 30)
      requires size > 0
      ensures Valid() && contents == map[] && this.size == size && fresh(keys) && fresh(entries)
    {
      this.size := size;
      keys := new seq<string>[size](_ => []);
      entries := new seq<T>[size](_ => []);
      contents := map[];
    }

    /** hash_table.cpp:22-36: a key with a bad index is dropped. */
    method InsertKey(key: string, ent: T)
      requires Valid()
      modifies this, keys, entries
      ensures Valid() && contents == if Good(key, size) then old(contents)[key := ent] else old(contents)
    {
      hide Bucket, IndexOf;
      var index := BucketIndex(key);
      if index < 0 || index > size - 1 { return; }
      if key !in keys[index] {
        BucketInsert(keys[index], entries[index], contents, size, index, key, ent);
        forall b | 0 <= b < size && b != index ensures Bucket(keys[b], entries[b], contents[key := ent], size, b) {
          BucketElsewhere(keys[b], entries[b], contents, size, b, key, ent);
        }
        keys[index] := keys[index] + [key];
        entries[index] := entries[index] + [ent];
        contents := contents[key := ent];
      } else {
        KeyIsThere(keys[index], entries[index], contents, size, index, key);
        SetKey(key, ent);
      }
    }

    /** hash_table.cpp:39-55. */
    method GetKey(key: string) returns (r: Lookup<T>)
      requires Valid()
      ensures r == if !Good(key, size) then BadIndex else if key in contents then Found(contents[key]) else Missing
    {
      var index := BucketIndex(key);
      if index < 0 || index > size - 1 { return BadIndex; }
      assert Bucket(keys[index], entries[index], contents, size, index);
      for i := 0 to |entries[index]|
        invariant key !in keys[index][..i]
      {
        if keys[index][i] == key { return Found(entries[index][i]); }
      }
      return Missing;
    }

    /** hash_table.cpp:58-72: a key that is not there stays away. */
    method SetKey(key: string, ent: T)
      requires Valid()
      modifies this, entries
      ensures Valid() && contents == if Good(key, size) && key in old(contents) then old(contents)[key := ent]
        else old(contents)
    {
      hide Bucket, IndexOf;
      var index := BucketIndex(key);
      if index < 0 || index > size - 1 { return; }
      BucketLengths(keys[index], entries[index], contents, size, index);
      for i := 0 to |keys[index]|
        invariant key !in keys[index][..i]
        invariant unchanged(this) && unchanged(entries)
      {
        if keys[index][i] == key {
          KeyIsThere(keys[index], entries[index], contents, size, index, key);
          BucketSet(keys[index], entries[index], contents, size, index, i, ent);
          forall b | 0 <= b < size && b != index ensures Bucket(keys[b], entries[b], contents[key := ent], size, b) {
            BucketElsewhere(keys[b], entries[b], contents, size, b, key, ent);
          }
          entries[index] := entries[index][i := ent];
          contents := contents[key := ent];
          return;
        }
      }
      KeyIsThere(keys[index], entries[index], contents, size, index, key);
    }

    /**
     hash_table.cpp:76-89: the loop goes on over the shortened bucket, and since a key is there
     at most once, exactly its binding goes.  A bad index is not checked: `None`, for what lies
     outside the array.
     */
    method RemoveKey(key: string) returns (r: Option<bool>)
      requires Valid()
      modifies this, keys, entries
      ensures r.None? <==> !Good(key, size)
      ensures Valid() && (r.None? ==> contents == old(contents))
      ensures r.Some? ==> contents == old(contents) - {key} && (r.value <==> key in old(contents))
    {
      hide Bucket, IndexOf;
      var index := BucketIndex(key);
      if index < 0 || index > size - 1 { return None; }
      BucketLengths(keys[index], entries[index], contents, size, index);
      KeyIsThere(keys[index], entries[index], contents, size, index, key);
      ghost var m := contents;
      var found := false;
      var i := 0;
      while i < |keys[index]|
        invariant unchanged(this) && Shaped()
        invariant forall b :: 0 <= b < size && b != index ==> keys[b] == old(keys[b]) && entries[b] == old(entries[b])
        invariant !found ==> key !in keys[index][..if i < |keys[index]| then i else |keys[index]|]
        invariant !found ==> Bucket(keys[index], entries[index], m, size, index) && keys[index] == old(keys[index])
        invariant found ==> Bucket(keys[index], entries[index], m - {key}, size, index)
        invariant found ==> key !in keys[index] && key in m
        modifies keys, entries
        decreases |keys[index]| - i
      {
        if keys[index][i] == key {
          BucketLengths(keys[index], entries[index], m, size, index);
          BucketRemove(keys[index], entries[index], m, size, index, i);
          KeyIsThere(keys[index], entries[index], m, size, index, key);
          keys[index] := Without(keys[index], i);
          entries[index] := Without(entries[index], i);
          found := true;
        }
        i := i + 1;
      }
      forall b | 0 <= b < size && b != index ensures Bucket(keys[b], entries[b], m - {key}, size, b) {
        assert Bucket(old(keys[b]), old(entries[b]), old(contents), size, b);
        BucketAway(keys[b], entries[b], m, size, b, key);
      }
      contents := contents - {key};
      assert !found ==> contents == m;
      return Some(found);
    }

    method BucketIndex(key: string) returns (index: int)
      requires Shaped()
      ensures index == IndexOf(key, size)
    {
      var h := Hash(key);
      index := Remainder(if h > 0 then h else Wrap(-h), size);
    }
  }

  lemma BucketAway<T>(ks: seq<string>, es: seq<T>, m: map<string, T>, size: int, b: int, key: string)
    requires size > 0 && Bucket(ks, es, m, size, b) && IndexOf(key, size) != b
    ensures Bucket(ks, es, m - {key}, size, b)
  {
    hide IndexOf;
  }

  lemma BucketLengths<T>(ks: seq<string>, es: seq<T>, m: map<string, T>, size: int, b: int)
    requires size > 0 && Bucket(ks, es, m, size, b)
    ensures |ks| == |es|
  {
  }

  lemma KeyIsThere<T>(ks: seq<string>, es: seq<T>, m: map<string, T>, size: int, b: int, key: string)
    requires size > 0 && Bucket(ks, es, m, size, b) && IndexOf(key, size) == b
    ensures key in ks <==> key in m
  {
    hide IndexOf;
  }
}
