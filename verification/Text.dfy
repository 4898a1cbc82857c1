/**
 Splitting, joining and searching strings: what the loops of my_string.cpp and my_vector.cpp
 compute, as functions on character sequences, and how these undo each other.
 */
module Text {
  import opened Folds
  import opened Threads

  // ---- Splitting and joining ------------------------------------------------------------

  /** The pieces between the delimiters, an empty last one included. */
  function Pieces(s: string, d: char): (ps: seq<string>)
    ensures ps != []
  {
    if s == "" then [""]
    else
      var ps := Pieces(s[..|s| - 1], d);
      var c := s[|s| - 1];
      if c == d then ps + [""] else ps[..|ps| - 1] + [ps[|ps| - 1] + [c]]
  }

  predicate EndsIn(s: string, d: char) {
    s != "" && s[|s| - 1] == d
  }

  /**
   The char form of split: an empty last piece after a delimiter is not listed
   (my_string.cpp:124-145).
   */
  function Split(s: string, d: char): seq<string> {
    var ps := Pieces(s, d);
    if EndsIn(s, d) then ps[..|ps| - 1] else ps
  }

  /** The pieces with a delimiter between each two (my_vector.cpp:66-76). */
  function Join(ps: seq<string>, d: char): string
    requires ps != []
  {
    if |ps| == 1 then ps[0] else Join(ps[..|ps| - 1], d) + [d] + ps[|ps| - 1]
  }

  predicate Free(p: string, d: char) {
    forall k :: 0 <= k < |p| ==> p[k] != d
  }

  predicate AllFree(ps: seq<string>, d: char) {
    forall i :: 0 <= i < |ps| ==> Free(ps[i], d)
  }

  /** Joining into a longer last piece. */
  lemma JoinLast(ps: seq<string>, d: char, x: string)
    requires ps != []
    ensures var k := |ps| - 1; Join(ps[..k] + [ps[k] + x], d) == Join(ps, d) + x
  {
    var k := |ps| - 1;
    assert (ps[..k] + [ps[k] + x])[..k] == ps[..k];
  }

  lemma {:induction false} JoinPieces(s: string, d: char)
    ensures Join(Pieces(s, d), d) == s
  {
    if s != "" {
      var t := s[..|s| - 1];
      var ps := Pieces(t, d);
      JoinPieces(t, d);
      JoinLast(ps, d, [s[|s| - 1]]);
      assert (ps + [""])[..|ps|] == ps;
      assert s == t + [s[|s| - 1]];
    }
  }

  /** Joining what split gave restores the string, but for one delimiter at its end. */
  lemma JoinAfterSplit(s: string, d: char)
    ensures Split(s, d) != []
    ensures Join(Split(s, d), d) == if EndsIn(s, d) then s[..|s| - 1] else s
  {
    JoinPieces(s, d);
    if EndsIn(s, d) {
      var ps := Pieces(s[..|s| - 1], d);
      JoinPieces(s[..|s| - 1], d);
      assert (ps + [""])[..|ps|] == ps;
    }
  }

  lemma {:induction false} PiecesSnoc(s: string, d: char, p: string)
    requires Free(p, d)
    ensures Pieces(s + [d] + p, d) == Pieces(s, d) + [p]
  {
    var all := s + [d] + p;
    if p == "" {
      assert all[..|all| - 1] == s;
    } else {
      var k := |p| - 1;
      assert all[..|all| - 1] == s + [d] + p[..k];
      PiecesSnoc(s, d, p[..k]);
      assert p == p[..k] + [p[k]];
    }
  }

  /** The first piece ends at the first delimiter. */
  lemma {:induction false} PiecesCons(p: string, d: char, rest: string)
    requires Free(p, d)
    ensures Pieces(p + [d] + rest, d) == [p] + Pieces(rest, d)
  {
    hide Pieces;
    if rest == "" {
      PiecesOne(p, d);
      PiecesOne("", d);
      PiecesStep(p, d, d);
      assert p + [d] + rest == p + [d];
    } else {
      var k := |rest| - 1;
      PiecesCons(p, d, rest[..k]);
      PiecesStep(rest[..k], d, rest[k]);
      PiecesStep(p + [d] + rest[..k], d, rest[k]);
      assert rest[..k] + [rest[k]] == rest && (p + [d] + rest[..k]) + [rest[k]] == p + [d] + rest;
    }
  }

  lemma PiecesStep(s: string, d: char, c: char)
    ensures var ps := Pieces(s, d);
            Pieces(s + [c], d) == if c == d then ps + [""] else ps[..|ps| - 1] + [ps[|ps| - 1] + [c]]
  {
    assert (s + [c])[..|s|] == s;
  }

  lemma {:induction false} PiecesOne(p: string, d: char)
    requires Free(p, d)
    ensures Pieces(p, d) == [p]
  {
    if p != "" {
      PiecesOne(p[..|p| - 1], d);
      assert p == p[..|p| - 1] + [p[|p| - 1]];
    }
  }

  lemma {:induction false} PiecesJoin(ps: seq<string>, d: char)
    requires ps != [] && AllFree(ps, d)
    ensures Pieces(Join(ps, d), d) == ps
  {
    var k := |ps| - 1;
    hide Pieces, Free;
    if k == 0 {
      PiecesOne(ps[0], d);
      assert ps == [ps[0]];
    } else {
      PiecesJoin(ps[..k], d);
      PiecesSnoc(Join(ps[..k], d), d, ps[k]);
      assert ps == ps[..k] + [ps[k]];
    }
  }

  /**
   Splitting what join gave restores pieces that hold no delimiter exactly when there is one
   piece only or the last one is not empty.
   */
  lemma SplitAfterJoin(ps: seq<string>, d: char)
    requires ps != [] && AllFree(ps, d)
    ensures Split(Join(ps, d), d) == ps <==> |ps| == 1 || ps[|ps| - 1] != ""
  {
    PiecesJoin(ps, d);
    var k := |ps| - 1;
    var last := ps[k];
    if last != "" {
      assert Free(last, d) && last[|last| - 1] != d;
    }
  }

  lemma {:induction false} PiecesFree(s: string, d: char)
    ensures AllFree(Pieces(s, d), d)
  {
    if s != "" { PiecesFree(s[..|s| - 1], d); }
  }

  // ---- The strtok form --------------------------------------------------------------------

  function NonEmpty(ps: seq<string>): seq<string> {
    Select(ps, (p: string) => p != "")
  }

  /** The pieces that are not empty, and all of them, in order. */
  lemma NonEmptyInOrder(ps: seq<string>) returns (at: seq<nat>)
    ensures Picks(at, ps, NonEmpty(ps), (p: string) => p != "")
  {
    at := SelectPicks(ps, (p: string) => p != "");
  }

  lemma NonEmptySnoc(ps: seq<string>, p: string)
    ensures NonEmpty(ps + [p]) == NonEmpty(ps) + (if p == "" then [] else [p])
  {
    assert (ps + [p])[..|ps|] == ps;
  }

  /** The first index from `k` on where `s` is a delimiter, or is none; the end of `s` if there is none. */
  function Skip(s: string, d: char, k: nat, delimiters: bool): (r: nat)
    requires k <= |s|
    ensures k <= r <= |s|
    ensures forall j :: k <= j < r ==> (s[j] == d) == delimiters
    ensures r < |s| ==> (s[r] == d) != delimiters
    decreases |s| - k
  {
    if k < |s| && (s[k] == d) == delimiters then Skip(s, d, k + 1, delimiters) else k
  }

  lemma {:induction false} PiecesOverDelimiters(s: string, d: char, a: nat, b: nat)
    requires a <= b <= |s| && (a == 0 || s[a - 1] == d)
    requires forall j :: a <= j < b ==> s[j] == d
    ensures NonEmpty(Pieces(s[..b], d)) == NonEmpty(Pieces(s[..a], d))
  {
    if a < b {
      assert s[..b][..b - 1] == s[..b - 1];
      PiecesOverDelimiters(s, d, a, b - 1);
      NonEmptySnoc(Pieces(s[..b - 1], d), "");
    }
  }

  lemma {:induction false} PiecesOverToken(s: string, d: char, a: nat, b: nat)
    requires a <= b <= |s| && (a == 0 || s[a - 1] == d)
    requires forall j :: a <= j < b ==> s[j] != d
    ensures var ps := Pieces(s[..a], d);
            Pieces(s[..b], d) == ps[..|ps| - 1] + [s[a..b]] && ps[|ps| - 1] == ""
  {
    if a == b {
      if a > 0 { assert s[..a][..a - 1] == s[..a - 1]; }
      assert s[a..b] == "";
    } else {
      assert s[..b][..b - 1] == s[..b - 1];
      PiecesOverToken(s, d, a, b - 1);
      assert s[a..b] == s[a..b - 1] + [s[b - 1]];
    }
  }

  lemma PiecesAtDelimiter(s: string, d: char, b: nat)
    requires b < |s| && s[b] == d
    ensures Pieces(s[..b + 1], d) == Pieces(s[..b], d) + [""]
  {
    assert s[..b + 1][..b] == s[..b];
  }

  lemma OneToken(s: string, d: char, a: nat, b: nat)
    requires a < b <= |s| && (a == 0 || s[a - 1] == d)
    requires forall j :: a <= j < b ==> s[j] != d
    ensures NonEmpty(Pieces(s[..b], d)) == NonEmpty(Pieces(s[..a], d)) + [s[a..b]]
    ensures b < |s| && s[b] == d ==> NonEmpty(Pieces(s[..b + 1], d)) == NonEmpty(Pieces(s[..b], d))
  {
    PiecesOverToken(s, d, a, b);
    var ps := Pieces(s[..a], d);
    hide Pieces, NonEmpty;
    NonEmptySnoc(ps[..|ps| - 1], s[a..b]);
    NonEmptySnoc(ps[..|ps| - 1], "");
    assert ps == ps[..|ps| - 1] + [""];
    if b < |s| && s[b] == d {
      PiecesAtDelimiter(s, d, b);
      NonEmptySnoc(Pieces(s[..b], d), "");
    }
  }

  /** The tokens of the first `k` characters. */
  function TokensTo(s: string, d: char, k: nat): seq<string>
    requires k <= |s|
  {
    NonEmpty(Pieces(s[..k], d))
  }

  lemma NoTokens(s: string, d: char)
    ensures TokensTo(s, d, 0) == []
  {
    assert s[..0] == "" && Pieces("", d) == [""] && [""][..0] == [];
  }

  lemma TokenStep(s: string, d: char, next: nat, start: nat, end: nat)
    requires next <= start < end <= |s| && (next == 0 || s[next - 1] == d)
    requires forall j :: next <= j < start ==> s[j] == d
    requires forall j :: start <= j < end ==> s[j] != d
    ensures TokensTo(s, d, end) == TokensTo(s, d, next) + [s[start..end]]
    ensures end < |s| && s[end] == d ==> TokensTo(s, d, end + 1) == TokensTo(s, d, end)
  {
    hide Pieces, NonEmpty;
    PiecesOverDelimiters(s, d, next, start);
    OneToken(s, d, start, end);
  }

  /**
   The strtok form with one delimiter (my_string.cpp:108-122): each call skips delimiters, and
   ends the token at the next one.  It gives the char form's pieces without the empty ones.
   */
  method SplitTokens(s: string, d: char) returns (list: seq<string>)
    ensures list == NonEmpty(Split(s, d))
  {
    hide TokensTo;
    NoTokens(s, d);
    list := [];
    var next: nat := 0;
    var start: nat := Skip(s, d, 0, true);
    while start < |s|
      invariant next <= start <= |s| && start == Skip(s, d, next, true)
      invariant next == 0 || next == |s| || s[next - 1] == d
      invariant list == TokensTo(s, d, next)
    {
      var end := Skip(s, d, start, false);
      TokenStep(s, d, next, start, end);
      list := list + [s[start..end]];
      next := if end < |s| then end + 1 else |s|;
      start := Skip(s, d, next, true);
    }
    AllTokens(s, d, next);
  }

  lemma AllTokens(s: string, d: char, next: nat)
    requires next <= |s| && (next == 0 || next == |s| || s[next - 1] == d) && Skip(s, d, next, true) == |s|
    ensures TokensTo(s, d, next) == NonEmpty(Split(s, d))
  {
    assert s[..|s|] == s;
    SplitDropsEmpty(s, d);
    hide Pieces, NonEmpty, Split;
    if next < |s| { PiecesOverDelimiters(s, d, next, |s|); }
  }

  lemma SplitDropsEmpty(s: string, d: char)
    ensures NonEmpty(Split(s, d)) == NonEmpty(Pieces(s, d))
  {
    if EndsIn(s, d) {
      var ps := Pieces(s[..|s| - 1], d);
      NonEmptySnoc(ps, "");
      assert (ps + [""])[..|ps|] == ps;
    }
  }

  // ---- Searching ------------------------------------------------------------------------------

  predicate At(s: string, p: string, k: nat) {
    k + |p| <= |s| && s[k..k + |p|] == p
  }

  /** Where `p` first occurs in `s`, from `k` on: the C function `strstr`. */
  function FirstFrom(s: string, p: string, k: nat): (r: Option<nat>)
    requires k <= |s|
    ensures r.Some? ==> k <= r.value && At(s, p, r.value) && forall j :: k <= j < r.value ==> !At(s, p, j)
    ensures r.None? ==> forall j :: k <= j ==> !At(s, p, j)
    decreases |s| - k
  {
    if At(s, p, k) then Some(k) else if k == |s| then None else FirstFrom(s, p, k + 1)
  }

  predicate Contains(s: string, p: string) {
    FirstFrom(s, p, 0).Some?
  }

  /** The test is whether the first occurrence is at the start (my_string.cpp:264-270). */
  predicate StartsWith(s: string, p: string) {
    FirstFrom(s, p, 0) == Some(0)
  }

  /** `contains` and `starts_with` mean what they say. */
  lemma SearchMeaning(s: string, p: string)
    ensures Contains(s, p) <==> exists a, b :: s == a + p + b
    ensures StartsWith(s, p) <==> p <= s
  {
    if k :| k == FirstFrom(s, p, 0) && k.Some? {
      var i := k.value;
      assert s == s[..i] + p + s[i + |p|..];
    }
    if a, b :| s == a + p + b {
      assert At(s, p, |a|);
    }
    if p <= s { assert At(s, p, 0); }
  }

  /** Without the first occurrence of `p`. */
  function RemoveFirst(s: string, p: string): string {
    var k := FirstFrom(s, p, 0);
    if k.None? then s else s[..k.value] + s[k.value + |p|..]
  }

  /** What is left is what was before and behind an occurrence of `p`, before which there is no other. */
  lemma RemoveFirstMeans(s: string, p: string) returns (before: string, behind: string)
    ensures Contains(s, p) ==> s == before + p + behind && RemoveFirst(s, p) == before + behind
    ensures Contains(s, p) ==> forall a, b :: s == a + p + b ==> |before| <= |a|
    ensures !Contains(s, p) ==> RemoveFirst(s, p) == s
  {
    before, behind := "", "";
    var k := FirstFrom(s, p, 0);
    if k.Some? {
      before, behind := s[..k.value], s[k.value + |p|..];
      assert s == before + p + behind;
      forall a, b | s == a + p + b ensures |before| <= |a| {
        assert At(s, p, |a|);
      }
    }
  }

  /**
   Removing the start of a string leaves the rest: a listed path is its root's path and a relative
   name.
   */
  lemma RemovePrefix(p: string, rest: string)
    ensures RemoveFirst(p + rest, p) == rest
    ensures p + RemoveFirst(p + rest, p) == p + rest
  {
    assert At(p + rest, p, 0);
    assert FirstFrom(p + rest, p, 0) == Some(0);
    assert (p + rest)[..0] + (p + rest)[|p|..] == rest;
  }
}
