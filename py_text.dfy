/** Python's `str.split(sep)` for a one-character separator and `str.strip()`,
    the two string operations the ingredient parser uses. */
module PyText {

  /** Index of the first `c` in `s`, or |s| when `s` holds none. */
  function Find(s: string, c: char): (i: nat)
    ensures i <= |s|
    ensures i < |s| ==> s[i] == c
    ensures forall k :: 0 <= k < i ==> s[k] != c
  {
    if s == [] then 0 else if s[0] == c then 0 else 1 + Find(s[1..], c)
  }

  /** A prefix of `s` holds the first `c` of `s` if it is long enough to. */
  lemma FindInPrefix(s: string, c: char, n: nat)
    requires n <= |s|
    ensures Find(s[..n], c) == if Find(s, c) < n then Find(s, c) else n
  {
    var i := Find(s, c);
    var j := Find(s[..n], c);
    if j < n {
      assert s[j] == c;
    }
    if i < n {
      assert s[..n][i] == c;
    }
  }

  /** Number of `c` in `s`. */
  function Count(s: string, c: char): nat {
    multiset(s)[c]
  }

  /** `s` holds no `c`. */
  predicate Free(s: string, c: char) {
    forall j :: 0 <= j < |s| ==> s[j] != c
  }

  /** Python's `s.split(c)`: the pieces between the separators, empty pieces included. */
  function Split(s: string, c: char): (r: seq<string>)
    ensures |r| >= 1
  {
    if s == [] then [""]
    else
      var rest := Split(s[1..], c);
      if s[0] == c then [""] + rest else [[s[0]] + rest[0]] + rest[1..]
  }

  /** A separator-free prefix joins the first piece of what follows it. */
  lemma {:induction false} SplitFreePrefix(a: string, b: string, c: char)
    requires Free(a, c)
    ensures Split(a + b, c) == [a + Split(b, c)[0]] + Split(b, c)[1..]
    decreases |a|
  {
    if a == [] {
      assert a + b == b && a + Split(b, c)[0] == Split(b, c)[0];
      assert Split(b, c) == [Split(b, c)[0]] + Split(b, c)[1..];
    } else {
      assert (a + b)[1..] == a[1..] + b;
      assert Free(a[1..], c) by {
        assert forall j :: 0 <= j < |a| - 1 ==> a[1..][j] == a[j + 1];
      }
      SplitFreePrefix(a[1..], b, c);
      assert [a[0]] + (a[1..] + Split(b, c)[0]) == a + Split(b, c)[0];
    }
  }

  /** A string without the separator is one piece. */
  lemma SplitWhole(s: string, c: char)
    requires Free(s, c)
    ensures Split(s, c) == [s]
  {
    SplitFreePrefix(s, [], c);
    assert s + [] == s;
  }

  /** The text before the first `c` holds no `c`. */
  lemma FindPrefixFree(s: string, c: char)
    ensures Free(s[..Find(s, c)], c)
  {
    assert forall j :: 0 <= j < Find(s, c) ==> s[..Find(s, c)][j] == s[j];
  }

  /** A string is what comes before position `i`, the character there, and what follows. */
  lemma Cut(s: string, i: nat)
    requires i < |s|
    ensures s == s[..i] + ([s[i]] + s[i + 1..])
  {
  }

  /** One step of `Split` when `c` occurs: the first piece, then the split of the rest. */
  lemma SplitStep(s: string, c: char)
    requires Find(s, c) < |s|
    ensures Split(s, c) == [s[..Find(s, c)]] + Split(s[Find(s, c) + 1..], c)
  {
    var i := Find(s, c);
    var pre, rest := s[..i], s[i + 1..];
    FindPrefixFree(s, c);
    Cut(s, i);
    SplitFreePrefix(pre, [c] + rest, c);
    assert ([c] + rest)[1..] == rest;
    assert pre + "" == pre;
  }

  /** The first piece runs up to the first separator, or is the whole string. */
  lemma SplitFirst(s: string, c: char)
    ensures Split(s, c)[0] == s[..Find(s, c)]
  {
    if Find(s, c) == |s| {
      SplitWhole(s, c);
      assert s[..|s|] == s;
    } else {
      SplitStep(s, c);
    }
  }

  /** There is one piece more than there are separators. */
  lemma {:induction false} SplitCount(s: string, c: char)
    ensures |Split(s, c)| == Count(s, c) + 1
    decreases |s|
  {
    if s != [] {
      SplitCount(s[1..], c);
      assert s == [s[0]] + s[1..];
      assert multiset(s) == multiset{s[0]} + multiset(s[1..]);
    }
  }

  /** When `c` occurs in `s`, the second piece is what follows the first `c`, up to the next. */
  lemma SplitSecond(s: string, c: char)
    requires c in s
    ensures |Split(s, c)| >= 2
    ensures var i := Find(s, c); i < |s| && Split(s, c)[1] == s[i + 1..][..Find(s[i + 1..], c)]
  {
    var i := Find(s, c);
    assert i < |s|;
    SplitStep(s, c);
    SplitFirst(s[i + 1..], c);
  }

  /** A character the string split does not hold is in none of its pieces; nor is the separator. */
  lemma {:induction false} PiecesAvoid(s: string, c: char, d: char)
    requires Free(s, d) || d == c
    ensures forall k :: 0 <= k < |Split(s, c)| ==> Free(Split(s, c)[k], d)
    decreases |s|
  {
    if s != [] {
      var rest := Split(s[1..], c);
      assert Free(s[1..], d) || d == c by {
        assert forall j :: 0 <= j < |s| - 1 ==> s[1..][j] == s[j + 1];
      }
      PiecesAvoid(s[1..], c, d);
      if s[0] != c {
        var head := [s[0]] + rest[0];
        assert Free(head, d) by {
          assert forall j :: 1 <= j < |head| ==> head[j] == rest[0][j - 1];
        }
        assert forall k :: 1 <= k < |Split(s, c)| ==> Split(s, c)[k] == rest[k];
      } else {
        assert forall k :: 1 <= k < |Split(s, c)| ==> Split(s, c)[k] == rest[k - 1];
      }
    }
  }

  /** Python's `c.join(parts)`. */
  function Join(parts: seq<string>, c: char): string
    requires parts != []
    decreases |parts|
  {
    if |parts| == 1 then parts[0] else parts[0] + [c] + Join(parts[1..], c)
  }

  /** Joining the pieces with the separator gives back the string. */
  lemma {:induction false} JoinSplit(s: string, c: char)
    ensures Join(Split(s, c), c) == s
    decreases |s|
  {
    if s != [] {
      var rest := Split(s[1..], c);
      JoinSplit(s[1..], c);
      if s[0] == c {
        assert ([""] + rest)[1..] == rest;
        assert s == [c] + s[1..];
      } else {
        var r := [[s[0]] + rest[0]] + rest[1..];
        if |rest| == 1 {
          assert s == [s[0]] + s[1..];
        } else {
          assert r[1..] == rest[1..];
          assert s == [s[0]] + s[1..];
        }
      }
    }
  }

  /** Splitting a join of separator-free pieces gives back the pieces. */
  lemma {:induction false} SplitJoin(parts: seq<string>, c: char)
    requires parts != []
    requires forall k :: 0 <= k < |parts| ==> Free(parts[k], c)
    ensures Split(Join(parts, c), c) == parts
    decreases |parts|
  {
    if |parts| == 1 {
      SplitWhole(parts[0], c);
    } else {
      var rest := Join(parts[1..], c);
      SplitJoin(parts[1..], c);
      assert parts[0] + [c] + rest == parts[0] + ([c] + rest);
      SplitFreePrefix(parts[0], [c] + rest, c);
      assert ([c] + rest)[1..] == rest;
      assert parts[0] + "" == parts[0];
      assert parts == [parts[0]] + parts[1..];
    }
  }

  /** The characters Python's `str.isspace()` accepts. */
  predicate IsSpace(ch: char) {
    '\U{9}' <= ch <= '\U{D}' || '\U{1C}' <= ch <= '\U{20}' || ch == '\U{85}' || ch == '\U{A0}' ||
    ch == '\U{1680}' || '\U{2000}' <= ch <= '\U{200A}' || ch == '\U{2028}' || ch == '\U{2029}' ||
    ch == '\U{202F}' || ch == '\U{205F}' || ch == '\U{3000}'
  }

  predicate AllSpace(s: string) {
    forall k :: 0 <= k < |s| ==> IsSpace(s[k])
  }

  /** Number of whitespace characters in `s` from position `i` on, up to the first other one. */
  function SpacesFrom(s: string, i: nat): (n: nat)
    requires i <= |s|
    ensures i + n <= |s|
    ensures forall k :: i <= k < i + n ==> IsSpace(s[k])
    ensures i + n < |s| ==> !IsSpace(s[i + n])
    decreases |s| - i
  {
    if i == |s| || !IsSpace(s[i]) then 0 else 1 + SpacesFrom(s, i + 1)
  }

  /** Number of whitespace characters in `s` before position `j`, back to the last other one. */
  function SpacesBefore(s: string, j: nat): (n: nat)
    requires j <= |s|
    ensures n <= j
    ensures forall k :: j - n <= k < j ==> IsSpace(s[k])
    ensures n < j ==> !IsSpace(s[j - 1 - n])
  {
    if j == 0 || !IsSpace(s[j - 1]) then 0 else 1 + SpacesBefore(s, j - 1)
  }

  /** Number of whitespace characters `s` starts with. */
  function Lead(s: string): nat {
    SpacesFrom(s, 0)
  }

  /** Number of whitespace characters `s` ends with. */
  function Trail(s: string): nat {
    SpacesBefore(s, |s|)
  }

  /** Python's `s.lstrip()`. */
  function LStrip(s: string): string {
    s[Lead(s)..]
  }

  /** Python's `s.rstrip()`. */
  function RStrip(s: string): string {
    s[..|s| - Trail(s)]
  }

  /** Python's `s.strip()`. */
  function Strip(s: string): (r: string)
    ensures |r| <= |s|
  {
    RStrip(LStrip(s))
  }

  /** `s.strip()` is the slice of `s` between its leading and its trailing whitespace. */
  lemma StripIsSlice(s: string)
    ensures var t := s[Lead(s)..]; Strip(s) == s[Lead(s)..|s| - Trail(t)]
  {
    var a := Lead(s);
    var t := s[a..];
    var m := |t| - Trail(t);
    assert Strip(s) == t[..m];
    assert t[..m] == s[a..a + m];
  }

  /** A character of a slice is a character of the string. */
  lemma SliceChars(s: string, a: nat, b: nat)
    requires a <= b <= |s|
    ensures forall ch :: ch in s[a..b] ==> ch in s
  {
    forall ch | ch in s[a..b]
      ensures ch in s
    {
      var k :| 0 <= k < b - a && s[a..b][k] == ch;
      assert s[a + k] == ch;
    }
  }

  /** A prefix of whitespace characters is all whitespace. */
  lemma SpacesPrefix(s: string, a: nat)
    requires a <= |s| && forall k :: 0 <= k < a ==> IsSpace(s[k])
    ensures AllSpace(s[..a])
  {
    assert forall k :: 0 <= k < a ==> s[..a][k] == s[k];
  }

  /** A suffix of whitespace characters is all whitespace. */
  lemma SpacesSuffix(s: string, b: nat)
    requires b <= |s| && forall k :: b <= k < |s| ==> IsSpace(s[k])
    ensures AllSpace(s[b..])
  {
    assert forall k :: 0 <= k < |s| - b ==> s[b..][k] == s[b + k];
  }

  /** `s.strip()` is `s` less its leading and trailing whitespace. */
  lemma StripShape(s: string)
    ensures var a := Lead(s); var b := |s| - Trail(s[a..]);
      a <= b && Strip(s) == s[a..b] && AllSpace(s[..a]) && AllSpace(s[b..])
  {
    var a := Lead(s);
    var t := s[a..];
    var b := |s| - Trail(t);
    StripIsSlice(s);
    SpacesPrefix(s, a);
    assert forall k :: b <= k < |s| ==> IsSpace(s[k]) by {
      assert forall k :: b <= k < |s| ==> s[k] == t[k - a];
    }
    SpacesSuffix(s, b);
  }

  /** `s.strip()` neither starts nor ends with whitespace. */
  lemma StripEnds(s: string)
    ensures Strip(s) != [] ==> !IsSpace(Strip(s)[0]) && !IsSpace(Strip(s)[|Strip(s)| - 1])
  {
    var a := Lead(s);
    var t := s[a..];
    var r := Strip(s);
    if r != [] {
      assert r[0] == t[0] == s[a];
      assert r[|r| - 1] == t[|t| - 1 - Trail(t)];
    }
  }

  /** `s.strip()` holds no character that `s` does not. */
  lemma StripChars(s: string)
    ensures forall ch :: ch in Strip(s) ==> ch in s
  {
    StripIsSlice(s);
    SliceChars(s, Lead(s), |s| - Trail(s[Lead(s)..]));
  }

  /** `[p.strip() for p in pieces]`. */
  function StripEach(pieces: seq<string>): (r: seq<string>)
    ensures |r| == |pieces|
    ensures forall k :: 0 <= k < |r| ==> r[k] == Strip(pieces[k])
  {
    seq(|pieces|, k requires 0 <= k < |pieces| => Strip(pieces[k]))
  }

  /** Stripping twice strips nothing more. */
  lemma StripIdempotent(s: string)
    ensures Strip(Strip(s)) == Strip(s)
  {
    var r := Strip(s);
    StripEnds(s);
    if r != [] {
      assert Lead(r) == 0 && r[0..] == r;
      assert Trail(r) == 0 && r[..|r|] == r;
    }
  }

  /** A string of whitespace strips to the empty string. */
  lemma StripAllSpace(s: string)
    requires AllSpace(s)
    ensures Strip(s) == ""
  {
    assert Lead(s) == |s|;
  }
}
