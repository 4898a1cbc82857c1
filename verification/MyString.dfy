/**
 The string class of my_string.cpp: a buffer on the heap, ended by a null character, and a
 length that the operators keep in their own ways.  The length is exact when it is the text's
 plus one, for the null; appending a character works only on an exact length.
 */
module MyStrings {
  import opened Threads
  import opened Text
  import opened Decimal

  const NUL: char := '\0'

  /** A text that a buffer can hold. */
  predicate Plain(s: string) {
    Free(s, NUL)
  }

  /** `a` holds the text `s`, ended by a null character. */
  ghost predicate Holds(a: array<char>, s: string)
    reads a
  {
    |s| < a.Length && a[..|s|] == s && a[|s|] == NUL && Plain(s)
  }

  /** The characters before the first null. */
  ghost function UpToNul(s: string): (t: string)
    ensures t <= s && Plain(t) && (|t| < |s| ==> s[|t|] == NUL)
  {
    if s == "" || s[0] == NUL then "" else [s[0]] + UpToNul(s[1..])
  }

  /** strlen. */
  method StrLen(a: array<char>, ghost s: string) returns (n: nat)
    requires Holds(a, s)
    ensures n == |s|
  {
    assert forall k :: 0 <= k < |s| ==> a[k] == s[k] != NUL;
    n := 0;
    while a[n] != NUL
      invariant n <= |s|
      decreases |s| - n
    {
      n := n + 1;
    }
  }

  /** strcpy. */
  method StrCpy(dst: array<char>, src: array<char>, ghost s: string)
    requires Holds(src, s) && |s| < dst.Length && dst != src
    modifies dst
    ensures Holds(dst, s)
    ensures forall k :: |s| < k < dst.Length ==> dst[k] == old(dst[k])
  {
    var n := StrLen(src, s);
    for i := 0 to n
      invariant dst[..i] == s[..i]
      invariant forall k :: i <= k < dst.Length ==> dst[k] == old(dst[k])
    {
      assert src[i] == s[i];
      dst[i] := src[i];
    }
    dst[n] := NUL;
  }

  /** strcat. */
  method StrCat(dst: array<char>, src: array<char>, ghost s: string, ghost t: string)
    requires Holds(dst, s) && Holds(src, t) && |s| + |t| < dst.Length && dst != src
    modifies dst
    ensures Holds(dst, s + t)
  {
    var m := StrLen(dst, s);
    var n := StrLen(src, t);
    for i := 0 to n
      invariant dst[..m + i] == s + t[..i]
    {
      assert src[i] == t[i];
      dst[m + i] := src[i];
      assert dst[..m + i + 1] == dst[..m + i] + [src[i]];
    }
    dst[m + n] := NUL;
    assert t[..n] == t;
    assert dst[..m + n] == s + t;
  }

  /** A string literal, or the buffer of a socket, as a null-terminated array. */
  method Literal(s: string) returns (a: array<char>)
    requires Plain(s)
    ensures fresh(a) && Holds(a, s)
  {
    a := new char[|s| + 1](i => if 0 <= i < |s| then s[i] else NUL);
    assert a[..|s|] == s;
  }

  /** What `substr` gives: an exception, a read past the end of the buffer, or a string. */
  datatype Piece = BadLength | Outside | Piece(buffer: array<char>)

  class MyString {
    var str: array<char>
    var len: nat
    ghost var text: string

    ghost predicate Valid()
      reads this, str
    {
      Holds(str, text) && len >= |text| + 1
    }

    ghost predicate Exact()
      reads this, str
    {
      Valid() && len == |text| + 1
    }

    /** my_string.cpp:23-27. */
    constructor (s: array<char>, ghost t: string)
      requires Holds(s, t)
      ensures Exact() && text == t && fresh(str)
    {
      var n := StrLen(s, t);
      var a := new char[n + 1];
      StrCpy(a, s, t);
      str, len, text := a, n + 1, t;
    }

    /** my_string.cpp:49-56. */
    constructor FromInt(num: int)
      ensures Exact() && text == Print(num) && IsNumeral(text, num) && fresh(str)
    {
      PrintIsNumeral(num);
      PrintFree(num, NUL);
      var a := Literal(Print(num));
      str, len, text := a, |Print(num)| + 1, Print(num);
    }

    /** my_string.cpp:288-295: an assignment makes the length exact again. */
    method Assign(s: array<char>, ghost t: string)
      requires Valid() && Holds(s, t)
      modifies this
      ensures Exact() && text == t && fresh(str)
    {
      var n := StrLen(s, t);
      var a := new char[n + 1];
      StrCpy(a, s, t);
      str, len, text := a, n + 1, t;
    }

    /**
     `+= char` (my_string.cpp:357-376) writes at the length, not at the null: it appends exactly
     when the length is exact, and else leaves the text as it is.
     */
    method AppendChar(c: char)
      requires Valid()
      modifies this
      ensures Valid() && fresh(str) && len == old(len) + 1
      ensures text == if old(Exact()) && c != NUL then old(text) + [c] else old(text)
      ensures Exact() <==> old(Exact()) && c != NUL
    {
      len := len + 1;
      var tmp := new char[len + 1];
      StrCpy(tmp, str, text);
      str := tmp;
      str[len - 2] := c;
      str[len - 1] := NUL;
      if len == |text| + 2 && c != NUL {
        assert str[..|text| + 1] == text + [c];
        text := text + [c];
      } else {
        assert str[..|text|] == text;
      }
    }

    /**
     `+= const char *` (my_string.cpp:337-354) appends, but adds the whole new text to the length.
     Its own buffer is freed before it is read: that is undefined, and nothing is done here.
     */
    method AppendText(s: array<char>, ghost t: string) returns (defined: bool)
      requires Valid() && Holds(s, t)
      modifies this
      ensures defined <==> s != old(str)
      ensures defined ==> Valid() && fresh(str) && text == old(text) + t
      ensures defined ==> len == old(len) + |text| + 1 && !Exact()
      ensures !defined ==> unchanged(this)
    {
      if s == str { return false; }
      var n := StrLen(str, text);
      var m := StrLen(s, t);
      var tmp := new char[n + m + 2];
      StrCpy(tmp, str, text);
      StrCat(tmp, s, text, t);
      text := text + t;
      str := new char[n + m + 1];
      StrCpy(str, tmp, text);
      len := len + n + m + 1;
      return true;
    }

    /**
     `+= const my_string &` (my_string.cpp:312-333) appends, and keeps exact lengths exact.  No
     two strings share a buffer; a string appended to itself reads the buffer it has freed.
     */
    method Append(other: MyString) returns (defined: bool)
      requires Valid() && other.Valid() && (other.str == str ==> other == this)
      modifies this
      ensures defined <==> other != this
      ensures defined ==> Valid() && fresh(str) && text == old(text) + other.text
      ensures defined ==> (Exact() <==> old(Exact()) && other.Exact())
      ensures !defined ==> unchanged(this)
    {
      if other == this { return false; }
      var tmp := new char[len + other.len + 2];
      StrCpy(tmp, str, text);
      StrCat(tmp, other.str, text, other.text);
      text := text + other.text;
      str := new char[len + other.len + 2];
      StrCpy(str, tmp, text);
      len := len + other.len - 1;
      return true;
    }

    /** `+= int` (my_string.cpp:378-406) appends the numeral and makes the length exact. */
    method AppendInt(num: int)
      requires Valid()
      modifies this
      ensures Exact() && fresh(str) && text == old(text) + Print(num)
      ensures IsNumeral(text[|old(text)|..], num)
    {
      hide IsNumeral;
      var tmp := new MyString.FromInt(num);
      var buffer := new char[len + 1];
      StrCpy(buffer, str, text);
      str := new char[len + tmp.len + 2];
      StrCpy(str, buffer, text);
      StrCat(str, tmp.str, text, tmp.text);
      text := text + tmp.text;
      assert text[|old(text)|..] == tmp.text;
      len := StrLen(str, text);
      len := len + 1;
    }

    /**
     `substr` (my_string.cpp:147-164): it copies one character more than it is asked for, and
     throws when the index of that last one is past the null.  A string whose length is inexact has
     it read further, past the null and past the buffer.
     */
    method Substr(start: nat, length: nat) returns (r: Piece, ghost t: string)
      requires Valid()
      ensures r.BadLength? <==> start + length >= len
      ensures r.Outside? <==> str.Length <= start + length < len
      ensures Exact() ==> !r.Outside? && (r.BadLength? <==> start + length > |text|)
      ensures r.Piece? && start <= |text| ==> fresh(r.buffer) && Holds(r.buffer, t)
      ensures r.Piece? && start <= |text| ==>
        t == text[start..if start + length < |text| then start + length + 1 else |text|]
    {
      t := "";
      if start + length >= len { return BadLength, t; }
      if start + length >= str.Length { return Outside, t; }
      var tmp := new char[length + 2];
      var j := 0;
      var i := start;
      while i <= start + length
        invariant start <= i <= start + length + 1 && j == i - start
        invariant tmp[..j] == str[start..i]
      {
        tmp[j] := str[i];
        j, i := j + 1, i + 1;
        assert tmp[..j] == tmp[..j - 1] + [str[i - 1]] == str[start..i];
      }
      tmp[j] := NUL;
      assert tmp[..j] == str[start..start + length + 1];
      if start <= |text| {
        t := text[start..if start + length < |text| then start + length + 1 else |text|];
        assert |t| < |text| - start + 1 && forall k :: 0 <= k < |t| ==> tmp[k] == str[start + k] == text[start + k];
        assert tmp[..|t|] == t;
      }
      return Piece(tmp), t;
    }

    /** The char form of `split` (my_string.cpp:124-145), which collects each piece by `+= char`. */
    method SplitAt(d: char) returns (list: seq<string>)
      requires Valid() && d != NUL
      ensures list == Split(text, d)
    {
      list := [];
      var none := Literal("");
      var tmp := new MyString(none, "");
      var pushed := false;
      var n := StrLen(str, text);
      for c := 0 to n
        invariant fresh(tmp) && tmp.Exact() && tmp.str != str && Holds(none, "")
        invariant Pieces(text[..c], d) == list + [tmp.text]
        invariant pushed == EndsIn(text[..c], d)
      {
        assert str[c] == text[c] && text[..c + 1][..c] == text[..c];
        if str[c] == d {
          var piece := Copy(tmp);
          list := list + [piece];
          pushed := true;
          tmp.Assign(none, "");
        } else {
          tmp.AppendChar(str[c]);
          pushed := false;
        }
      }
      assert text[..n] == text;
      if !pushed {
        var piece := Copy(tmp);
        list := list + [piece];
      }
    }

    /**
     `remove_substr` (my_string.cpp:205-228).  For an empty pattern what the new buffer holds is
     not determined.
     */
    method RemoveSubstr(p: array<char>, ghost t: string)
      requires Valid() && Holds(p, t) && p != str
      modifies this
      ensures Valid() && (t != "" ==> text == RemoveFirst(old(text), t))
      ensures Contains(old(text), t) ==> Exact()
    {
      var length := StrLen(p, t);
      var n := StrLen(str, text);
      var sub := StrStr(str, text, p, t);
      if sub.None? { return; }
      str := CopyAround(str, text, n, sub.value, length);
      str[n - length] := NUL;
      if t != "" { RemovedHolds(str, text, t); }
      text := if t != "" then RemoveFirst(text, t) else UpToNul(str[..]);
      len := StrLen(str, text);
      len := len + 1;
    }
  }

  /**
   The loop of `remove_substr`: it skips `length` characters at `k`, and copies nothing more when
   `length` is 0.
   */
  method CopyAround(a: array<char>, ghost s: string, n: nat, k: nat, length: nat) returns (tmp: array<char>)
    requires Holds(a, s) && n == |s| && k + length <= n
    ensures fresh(tmp) && tmp.Length == n - length + 1
    ensures length > 0 ==> tmp[..n - length] == s[..k] + s[k + length..]
  {
    tmp := new char[n - length + 1];
    var i, from, to := 0, 0, 0;
    while i < n + 1
      invariant to <= from <= n && i <= n + 1
      invariant length > 0 && from <= k ==> i == from == to
      invariant length > 0 && from > k ==> from == to + length && i == from + 1 && to >= k
      invariant length == 0 ==> from == to <= k
      invariant length > 0 && from <= k ==> tmp[..to] == s[..from]
      invariant length > 0 && from > k ==> tmp[..to] == s[..k] + s[k + length..from]
    {
      if from != k {
        assert a[from] == s[from];
        tmp[to] := a[from];
        to, from := to + 1, from + 1;
        i := i + 1;
      } else {
        from := from + length;
        i := i + length + 1;
      }
    }
    assert s[k + length..n] == s[k + length..];
  }

  lemma RemovedHolds(a: array<char>, s: string, t: string)
    requires Plain(s) && Contains(s, t) && |s| - |t| < a.Length && a[|s| - |t|] == NUL
    requires var k := FirstFrom(s, t, 0).value; a[..|s| - |t|] == s[..k] + s[k + |t|..]
    ensures Holds(a, RemoveFirst(s, t))
  {
    RemovedIs(s, t);
    hide RemoveFirst, FirstFrom, Contains, Plain;
  }

  lemma RemovedIs(s: string, t: string)
    requires Plain(s) && Contains(s, t)
    ensures var k := FirstFrom(s, t, 0).value;
            RemoveFirst(s, t) == s[..k] + s[k + |t|..] && |RemoveFirst(s, t)| == |s| - |t|
    ensures Plain(RemoveFirst(s, t))
  {
    var k := FirstFrom(s, t, 0).value;
    PlainParts(s, k, k + |t|);
    hide FirstFrom, Plain;
  }

  lemma PlainParts(s: string, i: nat, j: nat)
    requires Plain(s) && i <= j <= |s|
    ensures Plain(s[..i] + s[j..])
  {
  }

  /** The text of a string, as the vector's copy of it. */
  method Copy(s: MyString) returns (t: string)
    requires s.Valid()
    ensures t == s.text
  {
    var n := StrLen(s.str, s.text);
    t := s.str[..n];
  }

  /** strstr. */
  method StrStr(a: array<char>, ghost s: string, p: array<char>, ghost t: string) returns (r: Option<nat>)
    requires Holds(a, s) && Holds(p, t)
    ensures r == FirstFrom(s, t, 0)
  {
    var n := StrLen(a, s);
    var m := StrLen(p, t);
    var text := a[..n];
    return FirstFrom(text, p[..m], 0);
  }
}
