/**
 The growing array of my_vector.cpp.  Its contents are a sequence; there is always room for one
 more entry, and `last` is the next free index.
 */
module MyVectors {
  import opened Folds
  import opened Threads
  import opened Text
  import opened MyStrings

  function Filter<T(==)>(s: seq<T>, x: T): seq<T> {
    Select(s, (y: T) => y != x)
  }

  /** The entries other than `x`, and all of them, in order. */
  lemma FilterInOrder<T>(s: seq<T>, x: T) returns (at: seq<nat>)
    ensures Picks(at, s, Filter(s, x), (y: T) => y != x)
  {
    at := SelectPicks(s, (y: T) => y != x);
  }

  lemma {:induction false} FilterCounts<T>(s: seq<T>, x: T)
    ensures |Filter(s, x)| == |s| - multiset(s)[x]
    ensures multiset(Filter(s, x)) == multiset(s)[x := 0]
  {
    if s != [] {
      FilterCounts(s[..|s| - 1], x);
      assert s == s[..|s| - 1] + [s[|s| - 1]];
    }
  }

  /** With one entry fewer, what is left is all the others if and only if there was one at most. */
  lemma LeftOut<T>(s: seq<T>, x: T, rest: seq<T>)
    requires Filter(s, x) <= rest && |rest| == |s| - (if x in s then 1 else 0)
    ensures rest == Filter(s, x) <==> multiset(s)[x] <= 1
  {
    FilterCounts(s, x);
    assert x in s <==> x in multiset(s);
    hide Filter;
  }

  /** An entry can be taken out at its index. */
  function Without<T>(s: seq<T>, k: nat): seq<T>
    requires k < |s|
  {
    s[..k] + s[k + 1..]
  }

  /** What `at` gives: an entry, an exception, or what is before the array. */
  datatype Access<T> = Entry(value: T) | Thrown | BeforeArray

  class MyVector<T(0, ==)> {
    var size: nat
    var capacity: nat
    var last: int
    var entries: array<T>

    ghost predicate Valid()
      reads this
    {
      entries.Length == capacity && size < capacity && last == size
    }

    ghost function Contents(): (s: seq<T>)
      requires size <= entries.Length
      reads this, entries
      ensures |s| == size
    {
      entries[..size]
    }

    /** my_vector.cpp:7-10; a capacity of 0 would leave no room for the first push. */
    constructor (capacity: nat := 1)
      requires capacity >= 1
      ensures Valid() && Contents() == [] && fresh(entries)
    {
      size, this.capacity, last := 0, capacity, 0;
      entries := new T[capacity];
    }

    /** my_vector.cpp:12-23. */
    constructor Copy(other: MyVector<T>)
      requires other.Valid()
      ensures Valid() && Contents() == other.Contents() && fresh(entries)
    {
      size, capacity := other.size, other.capacity;
      entries := new T[other.capacity];
      last := other.last;
      new;
      CopyEntries(other.entries, entries, size);
    }

    /** my_vector.cpp:118-129. */
    method Enlarge()
      requires entries.Length == capacity && size <= capacity
      modifies this
      ensures entries.Length == capacity == 2 * old(capacity) && fresh(entries)
      ensures size == old(size) && last == old(last) && entries[..size] == old(entries[..size])
    {
      var tmp := new T[capacity * 2];
      CopyEntries(entries, tmp, size);
      entries := tmp;
      capacity := capacity * 2;
    }

    /** my_vector.cpp:58-64. */
    method Push(x: T)
      requires Valid()
      modifies this, entries
      ensures Valid() && Contents() == old(Contents()) + [x]
      ensures entries == old(entries) || fresh(entries)
    {
      ghost var was := entries[..size];
      size := size + 1;
      if size >= capacity { Enlarge(); }
      assert entries[..size - 1] == entries[..size][..size - 1] == was;
      entries[last] := x;
      last := last + 1;
      assert entries[..size] == was + [x];
    }

    /**
     An index past the end throws (my_vector.cpp:98-104); a negative one reads what is before the
     array.
     */
    method At(index: int) returns (r: Access<T>)
      requires Valid()
      ensures r == if index >= |Contents()| then Thrown else if index < 0 then BeforeArray else Entry(Contents()[index])
    {
      if index >= size { return Thrown; }
      if index < 0 { return BeforeArray; }
      return Entry(entries[index]);
    }

    method In(x: T) returns (found: bool)
      requires Valid()
      ensures found <==> x in Contents()
    {
      for i := 0 to size
        invariant x !in entries[..i]
      {
        if entries[i] == x { return true; }
      }
      return false;
    }

    /**
     The guard admits the index just past the end: the write is in bounds, and lost
     (my_vector.cpp:144-150).
     */
    method SetAt(index: int, x: T) returns (ok: bool)
      requires Valid()
      modifies entries
      ensures Valid() && (ok <==> 0 <= index <= |Contents()|)
      ensures Contents() == if 0 <= index < old(|Contents()|) then old(Contents())[index := x] else old(Contents())
    {
      if index < 0 || index > size { return false; }
      entries[index] := x;
      assert index == size ==> entries[..size] == old(entries[..size]);
      return true;
    }

    /** my_vector.cpp:181-200. */
    method RemoveAt(index: int) returns (ok: bool)
      requires Valid()
      modifies this
      ensures Valid() && (ok <==> 0 <= index < old(|Contents()|))
      ensures Contents() == if ok then old(Contents()[..index]) + old(Contents()[index + 1..]) else old(Contents())
      ensures if ok then fresh(entries) else entries == old(entries)
    {
      if index >= size || index < 0 { return false; }
      var tmp := new T[capacity];
      var j := 0;
      for i := 0 to size
        invariant j == if i <= index then i else i - 1
        invariant tmp[..j] == if i <= index then entries[..i] else entries[..index] + entries[index + 1..i]
        modifies tmp
      {
        if i != index {
          tmp[j] := entries[i];
          j := j + 1;
          assert tmp[..j] == tmp[..j - 1] + [entries[i]];
        }
      }
      entries := tmp;
      size := size - 1;
      last := last - 1;
      return true;
    }

    /**
     `remove` (my_vector.cpp:154-178) drops every entry equal to `x` but counts one: what is
     left is the filtered contents exactly when `x` occurs at most once.
     */
    method Remove(x: T) returns (found: bool)
      requires Valid()
      modifies this
      ensures Valid() && (found <==> x in old(Contents()))
      ensures |Contents()| == old(|Contents()|) - (if found then 1 else 0)
      ensures Filter(old(Contents()), x) <= Contents()
      ensures Contents() == Filter(old(Contents()), x) <==> multiset(old(Contents()))[x] <= 1
    {
      ghost var was := entries[..size];
      var tmp;
      tmp, found := CopyOthers(entries, size, capacity, x);
      hide Filter;
      LeftOut(was, x, if found then tmp[..size - 1] else was);
      if found {
        entries := tmp;
        size := size - 1;
        last := last - 1;
      }
    }

    /** my_vector.cpp:132-141. */
    method Clear()
      requires Valid()
      modifies this
      ensures Valid() && Contents() == [] && fresh(entries)
    {
      size := 0;
      last := 0;
      capacity := 1;
      entries := new T[capacity];
    }

    /**
     `operator=` (my_vector.cpp:206-216) takes over the contents but not the next free index:
     the vector is in order afterwards exactly when that index happens to be right.
     */
    method AssignFrom(other: MyVector<T>)
      requires other.Valid() && other != this
      modifies this
      ensures size < entries.Length && Contents() == other.Contents() && fresh(entries)
      ensures Valid() <==> old(last) == |other.Contents()|
    {
      size := other.size;
      capacity := other.capacity;
      entries := new T[capacity];
      CopyEntries(other.entries, entries, capacity);
    }
  }

  method CopyEntries<T>(src: array<T>, dst: array<T>, n: nat)
    requires n <= src.Length && n <= dst.Length && src != dst
    modifies dst
    ensures dst[..n] == src[..n] == old(src[..n])
  {
    for i := 0 to n
      invariant dst[..i] == src[..i] == old(src[..i])
      invariant src[..] == old(src[..])
    {
      dst[i] := src[i];
      assert dst[..i + 1] == dst[..i] + [src[i]];
    }
  }

  /** The loop of `remove`. */
  method CopyOthers<T(0, ==)>(src: array<T>, n: nat, capacity: nat, x: T) returns (tmp: array<T>, found: bool)
    requires n <= src.Length && n <= capacity
    ensures fresh(tmp) && tmp.Length == capacity
    ensures found <==> x in src[..n]
    ensures found ==> n > 0 && Filter(src[..n], x) <= tmp[..n - 1]
    ensures !found ==> Filter(src[..n], x) == src[..n]
  {
    tmp := new T[capacity];
    var j := 0;
    found := false;
    for i := 0 to n
      invariant j <= i && tmp[..j] == Filter(src[..i], x)
      invariant found <==> x in src[..i]
      invariant !found ==> Filter(src[..i], x) == src[..i]
    {
      assert src[..i + 1][..i] == src[..i];
      if src[i] == x {
        found := true;
      } else {
        tmp[j] := src[i];
        j := j + 1;
        assert tmp[..j] == tmp[..j - 1] + [src[i]];
      }
    }
    FilterCounts(src[..n], x);
    if found {
      assert x in multiset(src[..n]);
      assert tmp[..j] <= tmp[..n - 1];
    }
  }

  /**
   `join` (my_vector.cpp:66-76).  An entry was stored by an assignment, so its length is exact,
   and with it stays that of the result.  For the empty vector the size minus one wraps around and
   the loop leaves the array: `None`.
   */
  method JoinEntries(v: MyVector<string>, j: char) returns (r: Option<MyString>)
    requires v.Valid() && j != NUL
    requires forall i :: 0 <= i < |v.Contents()| ==> Plain(v.Contents()[i])
    ensures r.None? <==> v.Contents() == []
    ensures r.Some? ==> fresh(r.value) && r.value.Exact() && r.value.text == Join(v.Contents(), j)
  {
    if v.size == 0 { return None; }
    ghost var all := v.Contents();
    var none := Literal("");
    var tmp := new MyString(none, "");
    for i := 0 to v.size - 1
      invariant fresh(tmp) && tmp.Exact() && v.Contents() == all && v.Valid()
      invariant i == 0 ==> tmp.text == ""
      invariant i > 0 ==> tmp.text == Join(all[..i], j) + [j]
    {
      assert v.entries[i] == all[i] && all[..i + 1][..i] == all[..i];
      var entry := Stored(v.entries[i]);
      var _ := tmp.Append(entry);
      assert tmp.text == Join(all[..i + 1], j);
      tmp.AppendChar(j);
    }
    assert v.entries[v.size - 1] == all[v.size - 1] && all[..v.size] == all;
    var entry := Stored(v.entries[v.size - 1]);
    var _ := tmp.Append(entry);
    return Some(tmp);
  }

  /** A string as a vector holds it. */
  method Stored(s: string) returns (m: MyString)
    requires Plain(s)
    ensures fresh(m) && fresh(m.str) && m.Exact() && m.text == s
  {
    var a := Literal(s);
    m := new MyString(a, s);
  }
}
