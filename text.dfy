/** The two PHP string built-ins the configuration store relies on:
    `strtolower` (ASCII case folding) and `trim` with its default
    character list " \t\n\r\0\x0B". */
module Text {

  // ---------------------------------------------------------------------
  // Lower-casing
  // ---------------------------------------------------------------------

  predicate IsUpper(c: char) {
    'A' <= c <= 'Z'
  }

  /** strtolower on one character: A-Z become a-z, every other character is kept. */
  function AsciiLower(c: char): (d: char)
    ensures !IsUpper(d)
    ensures IsUpper(c) ==> d as int == c as int + 32
    ensures !IsUpper(c) ==> d == c
  {
    if IsUpper(c) then (c as int + 32) as char else c
  }

  /** strtolower on a whole string. */
  function Lower(s: string): (r: string)
    ensures |r| == |s|
    ensures forall i :: 0 <= i < |s| ==> r[i] == AsciiLower(s[i])
  {
    if s == [] then [] else [AsciiLower(s[0])] + Lower(s[1..])
  }

  /** Reference definition of "equal up to ASCII case", stated without Lower. */
  predicate EqualsIgnoreCase(a: string, b: string) {
    |a| == |b| && forall i :: 0 <= i < |a| ==> AsciiLower(a[i]) == AsciiLower(b[i])
  }

  /** Two strings lower-case to the same string exactly when they agree up to ASCII case. */
  lemma LowerEqualIff(a: string, b: string)
    ensures Lower(a) == Lower(b) <==> EqualsIgnoreCase(a, b)
  {
    if EqualsIgnoreCase(a, b) {
      assert forall i :: 0 <= i < |a| ==> Lower(a)[i] == Lower(b)[i];
    }
    if Lower(a) == Lower(b) {
      assert forall i :: 0 <= i < |a| ==> AsciiLower(a[i]) == Lower(b)[i];
    }
  }

  /** A string with no upper-case letter is left as it is. */
  lemma {:induction false} LowerOfLowerCase(s: string)
    requires forall i :: 0 <= i < |s| ==> !IsUpper(s[i])
    ensures Lower(s) == s
  {
    if s != [] {
      LowerOfLowerCase(s[1..]);
    }
  }

  /** Lower-casing twice is lower-casing once. */
  lemma LowerIdempotent(s: string)
    ensures Lower(Lower(s)) == Lower(s)
  {
    LowerOfLowerCase(Lower(s));
  }

  /** Lower-casing distributes over concatenation. */
  lemma {:induction false} LowerAppend(a: string, b: string)
    ensures Lower(a + b) == Lower(a) + Lower(b)
  {
    if a == [] {
      assert a + b == b;
    } else {
      assert (a + b)[1..] == a[1..] + b;
      LowerAppend(a[1..], b);
    }
  }

  // ---------------------------------------------------------------------
  // Trimming
  // ---------------------------------------------------------------------

  /** The characters PHP's trim strips by default: space, tab, line feed,
      carriage return, NUL and vertical tab (code 11). */
  predicate IsTrimChar(c: char) {
    c == ' ' || c == '\t' || c == '\n' || c == '\r' || c == '\0' || c == 11 as char
  }

  predicate AllTrimChars(s: string) {
    forall k :: 0 <= k < |s| ==> IsTrimChar(s[k])
  }

  /** Neither end of s is a trim character. */
  predicate IsTrimmed(s: string) {
    s == [] || (!IsTrimChar(s[0]) && !IsTrimChar(s[|s| - 1]))
  }

  /** ltrim: drop the leading run of trim characters. */
  function TrimLeft(s: string): (r: string)
    ensures |r| <= |s| && r == s[|s| - |r|..]
    ensures r == [] || !IsTrimChar(r[0])
  {
    if s != [] && IsTrimChar(s[0]) then TrimLeft(s[1..]) else s
  }

  /** rtrim: drop the trailing run of trim characters. */
  function TrimRight(s: string): (r: string)
    ensures |r| <= |s| && r == s[..|r|]
    ensures r == [] || !IsTrimChar(r[|r| - 1])
  {
    if s != [] && IsTrimChar(s[|s| - 1]) then TrimRight(s[..|s| - 1]) else s
  }

  /** What TrimLeft cuts off consists of trim characters only. */
  lemma {:induction false} TrimLeftCut(s: string)
    ensures AllTrimChars(s[..|s| - |TrimLeft(s)|])
  {
    if s != [] && IsTrimChar(s[0]) {
      TrimLeftCut(s[1..]);
      assert forall k :: 1 <= k < |s| - |TrimLeft(s)| ==> s[k] == s[1..][k - 1];
    }
  }

  /** What TrimRight cuts off consists of trim characters only. */
  lemma {:induction false} TrimRightCut(s: string)
    ensures AllTrimChars(s[|TrimRight(s)|..])
  {
    if s != [] && IsTrimChar(s[|s| - 1]) {
      TrimRightCut(s[..|s| - 1]);
      assert forall k :: |TrimRight(s)| <= k < |s| - 1 ==> s[k] == s[..|s| - 1][k];
    }
  }

  /** Slicing a suffix of s is slicing s itself. */
  lemma SliceOfSuffix(s: string, i: nat, k: nat)
    requires i + k <= |s|
    ensures s[i..][..k] == s[i..i + k] && s[i..][k..] == s[i + k..]
  {
  }

  /** TrimLeft then TrimRight leaves the piece s[i..i + |u|] of s, with only
      trim characters around it and none at its ends. */
  lemma TrimPieces(s: string)
    ensures var t := TrimLeft(s);
            var u := TrimRight(t);
            var i := |s| - |t|;
            i + |u| <= |s| && u == s[i..i + |u|] && IsTrimmed(u)
            && AllTrimChars(s[..i]) && AllTrimChars(s[i + |u|..])
  {
    var t := TrimLeft(s);
    var u := TrimRight(t);
    var i := |s| - |t|;
    TrimLeftCut(s);
    TrimRightCut(t);
    SliceOfSuffix(s, i, |u|);
    assert u != [] ==> u[0] == t[0];
  }

  /** trim: strip trim characters from both ends. */
  function Trim(s: string): (r: string)
    ensures |r| <= |s| && IsTrimmed(r)
  {
    TrimPieces(s);
    TrimRight(TrimLeft(s))
  }

  /** What trim returns is a contiguous piece of its input, with nothing but
      trim characters cut off on either side. */
  lemma TrimIsPiece(s: string)
    ensures exists i, j :: 0 <= i <= j <= |s| && Trim(s) == s[i..j]
                           && AllTrimChars(s[..i]) && AllTrimChars(s[j..])
  {
    TrimPieces(s);
    var u := TrimRight(TrimLeft(s));
    var i := |s| - |TrimLeft(s)|;
    var j := i + |u|;
    assert u == s[i..j] && AllTrimChars(s[..i]) && AllTrimChars(s[j..]);
    assert Trim(s) == u;
  }

  /** TrimLeft stops exactly at the first character that is not a trim character. */
  lemma {:induction false} TrimLeftAt(s: string, i: nat)
    requires i <= |s| && AllTrimChars(s[..i])
    requires i == |s| || !IsTrimChar(s[i])
    ensures TrimLeft(s) == s[i..]
  {
    if i > 0 {
      assert IsTrimChar(s[..i][0]);
      assert s[1..][..i - 1] == s[..i][1..];
      TrimLeftAt(s[1..], i - 1);
      assert s[1..][i - 1..] == s[i..];
    }
  }

  /** TrimRight stops exactly after the last character that is not a trim character. */
  lemma {:induction false} TrimRightAt(s: string, j: nat)
    requires j <= |s| && AllTrimChars(s[j..])
    requires j == 0 || !IsTrimChar(s[j - 1])
    ensures TrimRight(s) == s[..j]
  {
    if j < |s| {
      assert IsTrimChar(s[j..][|s| - 1 - j]);
      assert s[..|s| - 1][j..] == s[j..][..|s| - 1 - j];
      TrimRightAt(s[..|s| - 1], j);
      assert s[..|s| - 1][..j] == s[..j];
    }
  }

  /** A string made only of trim characters trims to the empty string. */
  lemma TrimAllTrimChars(s: string)
    requires AllTrimChars(s)
    ensures Trim(s) == []
  {
    assert s[..|s|] == s;
    TrimLeftAt(s, |s|);
  }

  /** TrimRight of a suffix s[i..] of s stops at the same place as on s. */
  lemma TrimRightOfDrop(s: string, i: nat, j: nat)
    requires i < j <= |s|
    requires AllTrimChars(s[j..])
    requires !IsTrimChar(s[j - 1])
    ensures TrimRight(s[i..]) == s[i..j]
  {
    var t := s[i..];
    var tail := t[j - i..];
    assert AllTrimChars(tail) by {
      forall k | 0 <= k < |tail| ensures IsTrimChar(tail[k]) {
        assert tail[k] == s[j..][k];
      }
    }
    TrimRightAt(t, j - i);
  }

  /** A non-empty trimmed piece of s with only trim characters around it is
      what TrimLeft followed by TrimRight leaves. */
  lemma TrimBothAt(s: string, i: nat, j: nat)
    requires i < j <= |s|
    requires AllTrimChars(s[..i]) && AllTrimChars(s[j..])
    requires !IsTrimChar(s[i]) && !IsTrimChar(s[j - 1])
    ensures TrimRight(TrimLeft(s)) == s[i..j]
  {
    TrimLeftAt(s, i);
    TrimRightOfDrop(s, i, j);
  }

  /** The contract of Trim determines its result: any trimmed piece of s
      with only trim characters around it is what Trim returns. */
  lemma TrimUnique(s: string, i: nat, j: nat)
    requires i <= j <= |s|
    requires AllTrimChars(s[..i]) && AllTrimChars(s[j..])
    requires IsTrimmed(s[i..j])
    ensures Trim(s) == s[i..j]
  {
    if i == j {
      assert AllTrimChars(s) by {
        forall k | 0 <= k < |s| ensures IsTrimChar(s[k]) {
          if k < i { assert s[..i][k] == s[k]; } else { assert s[i..][k - i] == s[k]; }
        }
      }
      TrimAllTrimChars(s);
    } else {
      assert s[i..j][0] == s[i] && s[i..j][j - i - 1] == s[j - 1];
      TrimBothAt(s, i, j);
    }
  }

  /** A string whose ends are not trim characters is left as it is. */
  lemma TrimOfTrimmed(s: string)
    requires IsTrimmed(s)
    ensures Trim(s) == s
  {
    assert s[..0] == [] && s[|s|..] == [] && s[0..|s|] == s;
    TrimUnique(s, 0, |s|);
  }

  /** Trimming twice is trimming once. */
  lemma TrimIdempotent(s: string)
    ensures Trim(Trim(s)) == Trim(s)
  {
    TrimOfTrimmed(Trim(s));
  }
}
