/** Searching one string in another, from the left and from the right. */
module Substring {
  import opened Wrappers

  predicate At(s: string, needle: string, i: int) { 0 <= i && i + |needle| <= |s| && s[i..i + |needle|] == needle }

  ghost predicate Occurs(s: string, needle: string) { exists i :: At(s, needle, i) }

  /** The offset of the first occurrence. */
  function First(s: string, needle: string): (r: Option<nat>)
    ensures r.Some? ==> r.value + |needle| <= |s|
  {
    if |s| < |needle| then None
    else if s[..|needle|] == needle then Some(0)
    else
      var rest := First(s[1..], needle);
      if rest.None? then None else Some(rest.value + 1)
  }

  lemma {:induction false} FirstIs(s: string, needle: string)
    ensures First(s, needle).Some? ==> At(s, needle, First(s, needle).value)
                                       && forall k: int :: k < First(s, needle).value ==> !At(s, needle, k)
    ensures First(s, needle).None? ==> !Occurs(s, needle)
  {
    if |s| >= |needle| && s[..|needle|] != needle {
      FirstIs(s[1..], needle);
      Shift(s, needle);
    }
  }

  lemma FirstAt(s: string, needle: string, i: nat)
    requires At(s, needle, i) && forall k: int :: k < i ==> !At(s, needle, k)
    ensures First(s, needle) == Some(i)
  {
    FirstIs(s, needle);
  }

  lemma Shift(s: string, needle: string)
    requires s != ""
    ensures forall k :: 1 <= k ==> (At(s, needle, k) <==> At(s[1..], needle, k - 1))
  {
    forall k | 1 <= k ensures At(s, needle, k) <==> At(s[1..], needle, k - 1) {
      if k + |needle| <= |s| { assert s[k..k + |needle|] == s[1..][k - 1..k - 1 + |needle|]; }
    }
  }

  lemma AtPrefix(s: string, i: nat, needle: string, k: int)
    requires i <= |s| && At(s[..i], needle, k)
    ensures At(s, needle, k) && k + |needle| <= i
  {
    assert s[..i][k..k + |needle|] == s[k..k + |needle|];
  }

  lemma AtSuffix(s: string, i: nat, needle: string, k: int)
    requires i <= k && At(s, needle, k)
    ensures At(s[i..], needle, k - i)
  {
    assert s[i..][k - i..k - i + |needle|] == s[k..k + |needle|];
  }

  /** std::string::rfind: the offset of the last occurrence. */
  function Last(s: string, needle: string): (r: Option<nat>)
    ensures r.Some? ==> r.value + |needle| <= |s|
  {
    if |s| < |needle| then None
    else if s[|s| - |needle|..] == needle then Some(|s| - |needle|)
    else Last(s[..|s| - 1], needle)
  }

  lemma {:induction false} LastAt(s: string, needle: string, i: nat)
    requires At(s, needle, i) && forall k: int :: k > i ==> !At(s, needle, k)
    ensures Last(s, needle) == Some(i)
  {
    if i + |needle| == |s| {
      assert s[i..i + |needle|] == s[|s| - |needle|..];
    } else {
      var t := s[..|s| - 1];
      assert !At(s, needle, |s| - |needle|);
      assert s[|s| - |needle|..] == s[|s| - |needle|..|s| - |needle| + |needle|];
      assert t[i..i + |needle|] == s[i..i + |needle|];
      forall k: int | k > i ensures !At(t, needle, k) {
        if At(t, needle, k) { AtPrefix(s, |s| - 1, needle, k); }
      }
      LastAt(t, needle, i);
    }
  }

  /** The needle occurs at `i` and nowhere else. */
  ghost predicate Only(s: string, needle: string, i: nat) {
    First(s, needle) == Some(i) && Last(s, needle) == Some(i) && forall k: int :: At(s, needle, k) <==> k == i
  }

  /** A needle not found again behind its first occurrence has no other. */
  lemma OnlyAt(s: string, needle: string, i: nat, rest: string)
    requires First(s, needle) == Some(i) && needle != "" && i < |s| && s[i + 1..] == rest && First(rest, needle).None?
    ensures Only(s, needle, i)
  {
    FirstIs(s, needle);
    FirstIs(s[i + 1..], needle);
    forall k: int | k > i ensures !At(s, needle, k) {
      if At(s, needle, k) { AtSuffix(s, i + 1, needle, k); }
    }
    LastAt(s, needle, i);
  }

  // ----- pieces between separators -------------------------------------------------------------

  /** Whether a text begins with a piece is decided by its own first piece. */
  lemma SamePiece(x: string, rest: string, y: string, d: char)
    requires d !in x && d !in y
    ensures (|y| + 1 <= |x + [d] + rest| && (x + [d] + rest)[..|y| + 1] == y + [d]) <==> x == y
  {
    var t := x + [d] + rest;
    assert t[..|x|] == x && t[|x|] == d && t[..|x| + 1] == x + [d];
    if |y| + 1 <= |t| && t[..|y| + 1] == y + [d] {
      assert t[|y|] == (y + [d])[|y|] && t[..|y|] == (y + [d])[..|y|];
      assert forall i :: 0 <= i < |y| ==> t[i] == t[..|y|][i] && t[i] in y;
      assert forall i :: 0 <= i < |x| ==> t[i] == t[..|x|][i] && t[i] in x;
    }
  }

  /** A needle that begins with a separator is not found inside a piece without one. */
  lemma {:induction false} PieceMiss(s: string, needle: string)
    requires |needle| >= 1 && needle[0] !in s
    ensures First(s, needle).None?
  {
    if |s| >= |needle| {
      assert s[0] in s && s[..|needle|][0] == s[0];
      PieceMiss(s[1..], needle);
    }
  }

  /** The search goes on behind a piece and its separator unless the needle is right there. */
  lemma {:induction false} PieceFirst(s: string, d: char, rest: string, needle: string)
    requires |needle| >= 1 && needle[0] == d && d !in s
    ensures var r := First(rest, needle);
            First(s + [d] + rest, needle)
            == if |needle| - 1 <= |rest| && rest[..|needle| - 1] == needle[1..] then Some(|s|)
               else if r.None? then None else Some(|s| + 1 + r.value)
  {
    var t := s + [d] + rest;
    if s == "" {
      assert t[1..] == rest;
      if |needle| <= |t| { assert t[..|needle|] == [d] + rest[..|needle| - 1] && needle == [d] + needle[1..]; }
    } else {
      assert t[1..] == s[1..] + [d] + rest;
      if |needle| <= |t| { assert t[..|needle|][0] == s[0] && s[0] in s; }
      PieceFirst(s[1..], d, rest, needle);
    }
  }

  /** std::string::find from an offset. */
  function FindFrom(s: string, needle: string, start: nat): (r: Option<nat>)
    requires start <= |s|
    ensures r.Some? ==> start <= r.value && r.value + |needle| <= |s|
  {
    var i := First(s[start..], needle);
    if i.None? then None else Some(start + i.value)
  }

  /** std::string::find for a string. */
  method FindText(s: string, needle: string, start: nat) returns (r: Option<nat>)
    requires start <= |s|
    ensures r == FindFrom(s, needle, start)
  {
    var i := start;
    while i + |needle| <= |s|
      invariant start <= i <= |s| + 1
      invariant forall k: int :: k < i - start ==> !At(s[start..], needle, k)
    {
      if s[i..i + |needle|] == needle {
        assert At(s[start..], needle, i - start) by {
          assert s[start..][i - start..i - start + |needle|] == s[i..i + |needle|];
        }
        FirstAt(s[start..], needle, i - start);
        return Some(i);
      }
      assert !At(s[start..], needle, i - start) by {
        assert s[start..][i - start..i - start + |needle|] == s[i..i + |needle|];
      }
      i := i + 1;
    }
    FirstIs(s[start..], needle);
    return None;
  }
}
