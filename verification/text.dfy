/** String helpers with the semantics of the JavaScript string methods the
    shell uses: `split` on a one-character separator, `join`, ASCII
    `toLowerCase`, `trim`, `indexOf` and `filter` on string arrays. */
module Text {

  /** Whitespace as `String.prototype.trim` sees it: the ECMAScript
      WhiteSpace and LineTerminator code points. */
  predicate IsSpace(c: char) {
    || c == ' ' || c == '\t' || c == '\n' || c == '\r' || c == '\U{B}' || c == '\U{C}'
    || c == '\U{A0}' || c == '\U{1680}' || ('\U{2000}' <= c <= '\U{200A}')
    || c == '\U{2028}' || c == '\U{2029}' || c == '\U{202F}' || c == '\U{205F}'
    || c == '\U{3000}' || c == '\U{FEFF}'
  }

  predicate IsUpper(c: char) {
    'A' <= c <= 'Z'
  }

  function LowerChar(c: char): (d: char)
    ensures !IsUpper(d)
    ensures !IsUpper(c) ==> d == c
    ensures IsUpper(c) ==> 'a' <= d <= 'z' && d as int - 'a' as int == c as int - 'A' as int
    ensures IsSpace(d) <==> IsSpace(c)
  {
    if IsUpper(c) then (c as int - 'A' as int + 'a' as int) as char else c
  }

  /** `toLowerCase` restricted to ASCII letters. */
  function Lower(s: string): (r: string)
    ensures |r| == |s|
    ensures forall i :: 0 <= i < |s| ==> r[i] == LowerChar(s[i])
  {
    seq(|s|, i requires 0 <= i < |s| => LowerChar(s[i]))
  }

  predicate IsLower(s: string) {
    forall i :: 0 <= i < |s| ==> !IsUpper(s[i])
  }

  lemma LowerIsLower(s: string)
    ensures IsLower(Lower(s))
    ensures IsLower(s) ==> Lower(s) == s
  {
  }

  lemma LowerConcat(a: string, b: string)
    ensures Lower(a + b) == Lower(a) + Lower(b)
  {
    assert forall i :: 0 <= i < |a + b| ==> Lower(a + b)[i] == (Lower(a) + Lower(b))[i];
  }

  /** The string without its leading whitespace. */
  function TrimStart(s: string): (r: string)
    ensures |r| <= |s| && r == s[|s| - |r|..]
    ensures r == [] || !IsSpace(r[0])
  {
    if |s| > 0 && IsSpace(s[0]) then TrimStart(s[1..]) else s
  }

  /** The string without its trailing whitespace. */
  function TrimEnd(s: string): (r: string)
    ensures |r| <= |s| && r == s[..|r|]
    ensures r == [] || !IsSpace(r[|r| - 1])
  {
    if |s| > 0 && IsSpace(s[|s| - 1]) then TrimEnd(s[..|s| - 1]) else s
  }

  /** Everything `TrimStart` cuts off is whitespace. */
  lemma {:induction false} TrimStartCuts(s: string)
    ensures forall i :: 0 <= i < |s| - |TrimStart(s)| ==> IsSpace(s[i])
  {
    if |s| > 0 && IsSpace(s[0]) {
      TrimStartCuts(s[1..]);
      forall i | 1 <= i < |s| - |TrimStart(s)|
        ensures IsSpace(s[i])
      {
        assert s[i] == s[1..][i - 1];
      }
    }
  }

  /** Everything `TrimEnd` cuts off is whitespace. */
  lemma {:induction false} TrimEndCuts(s: string)
    ensures forall i :: |TrimEnd(s)| <= i < |s| ==> IsSpace(s[i])
  {
    if |s| > 0 && IsSpace(s[|s| - 1]) {
      TrimEndCuts(s[..|s| - 1]);
      forall i | |TrimEnd(s)| <= i < |s| - 1
        ensures IsSpace(s[i])
      {
        assert s[i] == s[..|s| - 1][i];
      }
    }
  }

  /** `String.prototype.trim`: whitespace cut from both ends. */
  function Trim(s: string): (r: string)
    ensures |r| <= |s|
    ensures r == [] || (!IsSpace(r[0]) && !IsSpace(r[|r| - 1]))
  {
    var t := TrimStart(s);
    var r := TrimEnd(t);
    assert r != [] ==> r[0] == t[0];
    r
  }

  /** What `Trim` keeps is an infix of the string, and everything it cuts
      off, before and after, is whitespace. */
  lemma TrimCutsSpaces(s: string)
    ensures var r, k := Trim(s), |s| - |TrimStart(s)|;
      && k + |r| <= |s| && r == s[k..k + |r|]
      && (forall i :: 0 <= i < k ==> IsSpace(s[i]))
      && (forall i :: k + |r| <= i < |s| ==> IsSpace(s[i]))
  {
    TrimInfix(s);
    TrimStartCuts(s);
    TrimTrailing(s);
  }

  lemma TrimInfix(s: string)
    ensures var r, k := Trim(s), |s| - |TrimStart(s)|;
      k + |r| <= |s| && r == s[k..k + |r|]
  {
    var t := TrimStart(s);
    var r := TrimEnd(t);
    var k := |s| - |t|;
    assert Trim(s) == r;
    assert r == s[k..k + |r|] by {
      assert t == s[k..] && r == t[..|r|];
      forall j | 0 <= j < |r|
        ensures r[j] == s[k + j]
      {
        assert r[j] == t[j];
      }
    }
  }

  lemma TrimTrailing(s: string)
    ensures var r, k := Trim(s), |s| - |TrimStart(s)|;
      k + |r| <= |s| && forall i :: k + |r| <= i < |s| ==> IsSpace(s[i])
  {
    var t := TrimStart(s);
    var k := |s| - |t|;
    TrimEndCuts(t);
    forall i | k + |Trim(s)| <= i < |s|
      ensures IsSpace(s[i])
    {
      assert s[i] == t[i - k];
    }
  }

  /** A string with no whitespace at either end is its own trim. */
  lemma TrimUntrimmed(s: string)
    requires |s| > 0 && !IsSpace(s[0]) && !IsSpace(s[|s| - 1])
    ensures Trim(s) == s
  {
    assert TrimStart(s) == s;
    assert TrimEnd(s) == s;
  }

  lemma TrimIdempotent(s: string)
    ensures Trim(Trim(s)) == Trim(s)
  {
    var r := Trim(s);
    if r == [] {
      assert TrimStart(r) == [] && TrimEnd([]) == [];
    } else {
      TrimUntrimmed(r);
    }
  }

  /** `s.split(sep)`: the pieces between separators, so `k` separators
      give `k + 1` pieces and adjacent separators give an empty piece. */
  function Split(s: string, sep: char): (parts: seq<string>)
    ensures |parts| >= 1
  {
    if |s| == 0 then [""]
    else
      var rest := Split(s[1..], sep);
      if s[0] == sep then [""] + rest
      else [[s[0]] + rest[0]] + rest[1..]
  }

  /** No piece holds the separator, and a string without one is its own
      single piece. */
  lemma {:induction false} SplitPieces(s: string, sep: char)
    ensures forall i :: 0 <= i < |Split(s, sep)| ==> sep !in Split(s, sep)[i]
    ensures sep !in s ==> Split(s, sep) == [s]
  {
    if |s| > 0 {
      SplitPieces(s[1..], sep);
      assert s == [s[0]] + s[1..];
    }
  }

  lemma {:induction false} SplitKeepsLower(s: string, sep: char)
    requires IsLower(s)
    ensures forall i :: 0 <= i < |Split(s, sep)| ==> IsLower(Split(s, sep)[i])
  {
    if |s| > 0 {
      SplitKeepsLower(s[1..], sep);
    }
  }

  /** `Array.prototype.join`: the parts in order, with the separator
      between neighbours. */
  function Join(parts: seq<string>, sep: string): string
    decreases |parts|
  {
    if |parts| == 0 then ""
    else if |parts| == 1 then parts[0]
    else parts[0] + sep + Join(parts[1..], sep)
  }

  function Last<T>(xs: seq<T>): T
    requires |xs| > 0
  {
    xs[|xs| - 1]
  }

  /** A joined line starts with the first part and ends with the last. */
  lemma {:induction false} JoinEnds(parts: seq<string>, sep: string)
    requires |parts| > 0
    ensures var line := Join(parts, sep);
      && |parts[0]| <= |line| && line[..|parts[0]|] == parts[0]
      && |Last(parts)| <= |line| && line[|line| - |Last(parts)|..] == Last(parts)
    decreases |parts|
  {
    if |parts| > 1 {
      JoinEnds(parts[1..], sep);
      assert Last(parts[1..]) == Last(parts);
    }
  }

  /** A split has one piece exactly when there is no separator. */
  lemma {:induction false} SplitCount(s: string, sep: char)
    ensures sep !in s <==> |Split(s, sep)| == 1
  {
    if |s| > 0 {
      SplitCount(s[1..], sep);
      assert s == [s[0]] + s[1..];
    }
  }

  /** One step of splitting: a leading separator starts a new, empty
      first piece; any other character joins the first piece. */
  lemma SplitCons(s: string, sep: char)
    requires |s| > 0
    ensures var rest := Split(s[1..], sep);
      Split(s, sep) == if s[0] == sep then [""] + rest else [[s[0]] + rest[0]] + rest[1..]
  {
  }

  /** The last piece of a split is what follows the last separator: a
      suffix of the string, with the separator just before it when there
      is one. */
  lemma {:induction false} SplitLast(s: string, sep: char)
    ensures |Last(Split(s, sep))| <= |s|
    ensures s[|s| - |Last(Split(s, sep))|..] == Last(Split(s, sep))
    ensures sep in s ==> |Last(Split(s, sep))| < |s| && s[|s| - |Last(Split(s, sep))| - 1] == sep
  {
    if |s| > 0 {
      SplitLast(s[1..], sep);
      SplitCount(s[1..], sep);
      if s[0] != sep && |Split(s[1..], sep)| == 1 {
        assert Split(s, sep) == [s] by {
          SplitPieces(s[1..], sep);
          assert s == [s[0]] + s[1..];
        }
      } else {
        SplitLastStep(s, sep);
      }
    }
  }

  /** When the first character is a separator, or the rest has one, the
      last piece is the rest's last piece. */
  lemma SplitLastStep(s: string, sep: char)
    requires |s| > 0
    requires s[0] == sep || |Split(s[1..], sep)| > 1
    requires var piece := Last(Split(s[1..], sep));
      && |piece| <= |s| - 1 && s[1..][|s| - 1 - |piece|..] == piece
      && (sep in s[1..] ==> |piece| < |s| - 1 && s[1..][|s| - 1 - |piece| - 1] == sep)
    requires sep !in s[1..] <==> |Split(s[1..], sep)| == 1
    ensures var piece := Last(Split(s[1..], sep));
      && Last(Split(s, sep)) == piece
      && |piece| <= |s| && s[|s| - |piece|..] == piece
      && (sep in s ==> |piece| < |s| && s[|s| - |piece| - 1] == sep)
  {
    var tail := s[1..];
    var rest := Split(tail, sep);
    var piece := Last(rest);
    SplitCons(s, sep);
    SplitPieces(tail, sep);
    assert Last(Split(s, sep)) == piece;
    assert s[|s| - |piece|..] == tail[|tail| - |piece|..];
    if sep in tail {
      assert s[|s| - |piece| - 1] == tail[|tail| - |piece| - 1];
    }
  }

  /** Splitting distributes over a separator: the pieces of `a + sep + b`
      are the pieces of `a` followed by the pieces of `b`. */
  lemma {:induction false} SplitAround(a: string, sep: char, b: string)
    ensures Split(a + [sep] + b, sep) == Split(a, sep) + Split(b, sep)
  {
    var s := a + [sep] + b;
    if |a| == 0 {
      assert s == [sep] + b;
      assert s[1..] == b;
    } else {
      assert s[0] == a[0];
      assert s[1..] == a[1..] + [sep] + b;
      SplitAround(a[1..], sep, b);
    }
  }

  /** Joining the pieces of a split gives back the original string. */
  lemma {:induction false} JoinSplit(s: string, sep: char)
    ensures Join(Split(s, sep), [sep]) == s
  {
    if |s| > 0 {
      JoinSplit(s[1..], sep);
      var rest := Split(s[1..], sep);
      assert s == [s[0]] + s[1..];
      if s[0] == sep {
        assert Split(s, sep) == [""] + rest;
        assert Join(Split(s, sep), [sep]) == [sep] + Join(rest, [sep]);
        assert [s[0]] + s[1..] == s;
      } else {
        var parts := Split(s, sep);
        assert parts[0] == [s[0]] + rest[0];
        assert parts[1..] == rest[1..];
        if |rest| == 1 {
          assert Join(parts, [sep]) == [s[0]] + rest[0];
        } else {
          assert Join(parts, [sep]) == [s[0]] + rest[0] + [sep] + Join(rest[1..], [sep]);
          assert Join(rest, [sep]) == rest[0] + [sep] + Join(rest[1..], [sep]);
        }
        assert [s[0]] + s[1..] == s;
      }
    }
  }

  /** Splitting a join of separator-free pieces gives the pieces back. */
  lemma {:induction false} SplitJoin(parts: seq<string>, sep: char)
    requires |parts| >= 1
    requires forall i :: 0 <= i < |parts| ==> sep !in parts[i]
    ensures Split(Join(parts, [sep]), sep) == parts
  {
    SplitPieces(parts[0], sep);
    if |parts| > 1 {
      var rest := Join(parts[1..], [sep]);
      SplitJoin(parts[1..], sep);
      assert Join(parts, [sep]) == parts[0] + [sep] + rest;
      SplitAround(parts[0], sep, rest);
      assert [parts[0]] + parts[1..] == parts;
    }
  }

  /** The first index of `x` in `xs`, or -1 (`Array.prototype.indexOf`). */
  function IndexOf<T(==)>(xs: seq<T>, x: T): (r: int)
    ensures -1 <= r < |xs|
    ensures r == -1 <==> x !in xs
    ensures r >= 0 ==> xs[r] == x && x !in xs[..r]
  {
    if |xs| == 0 then -1
    else if xs[0] == x then 0
    else
      var k := IndexOf(xs[1..], x);
      if k == -1 then -1
      else
        assert xs[..k + 1] == [xs[0]] + xs[1..][..k];
        k + 1
  }

  /** The items of `xs` other than `x`, in their original order (an array
      filter that drops one value). */
  function Without<T(==)>(xs: seq<T>, x: T): (r: seq<T>)
    ensures x !in r
    ensures x !in xs ==> r == xs
  {
    if |xs| == 0 then []
    else
      var rest := Without(xs[1..], x);
      if xs[0] == x then rest else [xs[0]] + rest
  }

  /** Filtering removes every occurrence of `x` and keeps every other item
      as often as it occurred. */
  lemma {:induction false} WithoutCounts<T>(xs: seq<T>, x: T)
    ensures multiset(Without(xs, x)) == multiset(xs)[x := 0]
    decreases |xs|
  {
    if |xs| > 0 {
      var rest := Without(xs[1..], x);
      WithoutCounts(xs[1..], x);
      assert xs == [xs[0]] + xs[1..];
      assert multiset(xs) == multiset{xs[0]} + multiset(xs[1..]);
      if xs[0] != x {
        assert multiset(Without(xs, x)) == multiset{xs[0]} + multiset(rest);
      }
    }
  }

  /** Filtering works piece by piece, so the kept items stay in their
      original order. */
  lemma {:induction false} WithoutConcat<T>(a: seq<T>, b: seq<T>, x: T)
    ensures Without(a + b, x) == Without(a, x) + Without(b, x)
    decreases |a|
  {
    if |a| == 0 {
      assert a + b == b;
    } else {
      var ab := a + b;
      assert ab[0] == a[0] && ab[1..] == a[1..] + b;
      WithoutConcat(a[1..], b, x);
      if a[0] == x {
        assert Without(ab, x) == Without(ab[1..], x);
        assert Without(a, x) == Without(a[1..], x);
      } else {
        var wa, wb := Without(a[1..], x), Without(b, x);
        assert Without(ab, x) == [a[0]] + (wa + wb);
        assert Without(a, x) == [a[0]] + wa;
        assert [a[0]] + (wa + wb) == ([a[0]] + wa) + wb;
      }
    }
  }

  /** A one-item list keeps its item exactly when it differs from `x`. */
  lemma WithoutSingle<T>(y: T, x: T)
    ensures Without([y], x) == if y == x then [] else [y]
  {
    assert [y][1..] == [];
  }

  /** The non-empty parts, in their original order. */
  function NonEmpty(parts: seq<string>): (r: seq<string>)
    ensures forall i :: 0 <= i < |r| ==> r[i] != "" && r[i] in parts
    ensures (forall i :: 0 <= i < |parts| ==> parts[i] != "") ==> r == parts
  {
    if |parts| == 0 then []
    else
      var rest := NonEmpty(parts[1..]);
      if parts[0] == "" then rest else [parts[0]] + rest
  }

  lemma {:induction false} NonEmptyConcat(a: seq<string>, b: seq<string>)
    ensures NonEmpty(a + b) == NonEmpty(a) + NonEmpty(b)
  {
    if |a| > 0 {
      assert (a + b)[1..] == a[1..] + b;
      NonEmptyConcat(a[1..], b);
    } else {
      assert a + b == b;
    }
  }
}
