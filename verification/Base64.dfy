/** The base64 decoder of bundled rule sets: exactly the canonical encodings of sections 3.5 and 4 of RFC 4648. */
module Base64 {
  import opened Wrappers
  import opened Text

  const MAX_RULE_SET: nat := 128 * 1024
  const MAX_ENCODED: nat := (MAX_RULE_SET + 2) / 3 * 4

  function SymbolValue(c: char): int {
    if 'A' <= c <= 'Z' then (c - 'A') as int
    else if 'a' <= c <= 'z' then (c - 'a') as int + 26
    else if '0' <= c <= '9' then (c - '0') as int + 52
    else if c == '+' then 62
    else if c == '/' then 63
    else -1
  }

  function Symbol(n: int): char requires 0 <= n < 64 {
    if n < 26 then 'A' + n as char
    else if n < 52 then 'a' + (n - 26) as char
    else if n < 62 then '0' + (n - 52) as char
    else if n == 62 then '+' else '/'
  }

  lemma SymbolInverse(n: int, c: char)
    ensures 0 <= n < 64 ==> SymbolValue(Symbol(n)) == n && Symbol(n) != '='
    ensures SymbolValue(c) >= 0 ==> SymbolValue(c) < 64 && Symbol(SymbolValue(c)) == c && c != '='
  {
  }

  // ----- the encoding -----------------------------------------------------------------

  /** One group of one, two or three bytes. */
  function EncodeGroup(b: string): (s: string)
    requires 1 <= |b| <= 3 && IsBytes(b)
    ensures |s| == 4
  {
    var x := b[0] as int;
    var y := if |b| > 1 then b[1] as int else 0;
    var z := if |b| > 2 then b[2] as int else 0;
    [Symbol(x / 4), Symbol(x % 4 * 16 + y / 16),
     if |b| > 1 then Symbol(y % 16 * 4 + z / 64) else '=', if |b| > 2 then Symbol(z % 64) else '=']
  }

  function Encode(b: string): (s: string)
    requires IsBytes(b)
    ensures |s| == (|b| + 2) / 3 * 4
  {
    if b == "" then "" else if |b| <= 3 then EncodeGroup(b)
    else
      Groups(|b|);
      EncodeGroup(b[..3]) + Encode(b[3..])
  }

  lemma Groups(n: nat)
    requires n > 3
    ensures (n + 2) / 3 * 4 == 4 + (n - 3 + 2) / 3 * 4
  {
    assert (n + 2) / 3 == 1 + (n - 3 + 2) / 3;
  }

  // ----- the decoder -------------------------------------------------------------------

  /** One group of four symbols; padding only in the last, and only over zero bits. */
  function DecodeGroup(s: string, last: bool): Option<string>
    requires |s| == 4
  {
    var (pad2, pad3) := (s[2] == '=', s[3] == '=');
    var (a, b) := (SymbolValue(s[0]), SymbolValue(s[1]));
    var c := if pad2 then 0 else SymbolValue(s[2]);
    var d := if pad3 then 0 else SymbolValue(s[3]);
    if a < 0 || b < 0 || c < 0 || d < 0 || (!last && (pad2 || pad3)) || (pad2 && !pad3)
       || (pad2 && b % 16 != 0) || (!pad2 && pad3 && c % 4 != 0) then None
    else Some([(a * 4 + b / 16) as char]
              + (if pad2 then [] else [(b % 16 * 16 + c / 4) as char])
              + (if pad3 then [] else [(c % 4 * 64 + d) as char]))
  }

  function DecodeGroups(s: string): Option<string>
    requires |s| % 4 == 0
  {
    if s == "" then Some("")
    else
      var group := DecodeGroup(s[..4], |s| == 4);
      var rest := DecodeGroups(s[4..]);
      if group.None? || rest.None? then None else Some(group.value + rest.value)
  }

  function Decode(s: string): Option<string> {
    if s == "" || |s| % 4 != 0 || |s| > MAX_ENCODED then None
    else
      var b := DecodeGroups(s);
      if b.None? || b.value == "" || |b.value| > MAX_RULE_SET then None else b
  }

  lemma GroupsStep(s: string, i: nat)
    requires i + 4 <= |s| && i % 4 == 0 && |s| % 4 == 0
    ensures var group := DecodeGroup(s[i..i + 4], i + 4 == |s|);
            && (DecodeGroups(s[i..]).Some? <==> group.Some? && DecodeGroups(s[i + 4..]).Some?)
            && (DecodeGroups(s[i..]).Some? ==>
            DecodeGroups(s[i..]).value == group.value + DecodeGroups(s[i + 4..]).value)
  {
    assert s[i..][..4] == s[i..i + 4] && s[i..][4..] == s[i + 4..];
  }

  /** What is decoded so far, before what the rest decodes to. */
  ghost predicate SoFar(s: string, i: nat, b: string) requires i <= |s| && i % 4 == 0 && |s| % 4 == 0 {
    && (DecodeGroups(s).Some? <==> DecodeGroups(s[i..]).Some?)
    && (DecodeGroups(s).Some? ==> DecodeGroups(s).value == b + DecodeGroups(s[i..]).value)
  }

  lemma SoFarStep(s: string, i: nat, b: string, group: Option<string>)
    requires i + 4 <= |s| && i % 4 == 0 && |s| % 4 == 0 && SoFar(s, i, b)
             && group == DecodeGroup(s[i..i + 4], i + 4 == |s|)
    ensures if group.None? then DecodeGroups(s).None? else SoFar(s, i + 4, b + group.value)
  {
    GroupsStep(s, i);
  }

  lemma SoFarEnds(s: string, b: string)
    requires |s| % 4 == 0 && SoFar(s, |s|, b)
    ensures DecodeGroups(s) == Some(b)
  {
    assert s[|s|..] == "";
    assert DecodeGroups(s).value == b;
  }

  method DecodeNext(s: string, i: nat, b: string) returns (more: Option<string>)
    requires i + 4 <= |s| && i % 4 == 0 && |s| % 4 == 0 && SoFar(s, i, b)
    ensures if more.None? then DecodeGroups(s).None? else SoFar(s, i + 4, more.value)
  {
    var group := DecodeGroup(s[i..i + 4], i + 4 == |s|);
    SoFarStep(s, i, b, group);
    return if group.None? then None else Some(b + group.value);
  }

  lemma SoFarStarts(s: string)
    requires |s| % 4 == 0
    ensures SoFar(s, 0, "")
  {
    assert s[0..] == s;
    assert DecodeGroups(s).Some? ==> "" + DecodeGroups(s).value == DecodeGroups(s).value;
  }

  method DecodeAllGroups(s: string) returns (b: Option<string>)
    requires |s| % 4 == 0
    ensures b == DecodeGroups(s)
  {
    b := Some("");
    var i := 0;
    SoFarStarts(s);
    while i < |s|
      invariant 0 <= i <= |s| && i % 4 == 0 && b.Some? && SoFar(s, i, b.value)
    {
      b := DecodeNext(s, i, b.value);
      if b.None? { return; }
      i := i + 4;
    }
    SoFarEnds(s, b.value);
  }

  method DecodeBase64(s: string) returns (r: Option<string>)
    ensures r == Decode(s)
  {
    if s == "" || |s| % 4 != 0 || |s| > MAX_ENCODED { return None; }
    var b := DecodeAllGroups(s);
    return if b.None? || b.value == "" || |b.value| > MAX_RULE_SET then None else b;
  }

  // ----- inverse and canonical -------------------------------------------------------------

  /** Three bytes from four sextets, and back. */
  lemma Sextets(a: int, b: int, c: int, d: int)
    requires 0 <= a < 64 && 0 <= b < 64 && 0 <= c < 64 && 0 <= d < 64
    ensures var (x, y, z) := (a * 4 + b / 16, b % 16 * 16 + c / 4, c % 4 * 64 + d);
            && x < 256 && y < 256 && z < 256
            && x / 4 == a && x % 4 * 16 + y / 16 == b && y % 16 * 4 + z / 64 == c && z % 64 == d
            && (b % 16 == 0 ==> x % 4 * 16 == b) && (c % 4 == 0 ==> y % 16 * 4 == c)
  {
  }

  lemma Octets(x: int, y: int, z: int)
    requires 0 <= x < 256 && 0 <= y < 256 && 0 <= z < 256
    ensures var (a, b, c, d) := (x / 4, x % 4 * 16 + y / 16, y % 16 * 4 + z / 64, z % 64);
            && 0 <= a < 64 && 0 <= b < 64 && 0 <= c < 64 && 0 <= d < 64
            && a * 4 + b / 16 == x && b % 16 * 16 + c / 4 == y && c % 4 * 64 + d == z
            && (y == 0 ==> b % 16 == 0) && (z == 0 ==> c % 4 == 0)
  {
  }

  lemma FullGroupRoundTrip(b: string, last: bool)
    requires |b| == 3 && IsBytes(b)
    ensures DecodeGroup(EncodeGroup(b), last) == Some(b)
  {
    var (x, y, z) := (b[0] as int, b[1] as int, b[2] as int);
    Octets(x, y, z);
    SymbolInverse(x / 4, '=');
    SymbolInverse(x % 4 * 16 + y / 16, '=');
    SymbolInverse(y % 16 * 4 + z / 64, '=');
    SymbolInverse(z % 64, '=');
    assert DecodeGroup(EncodeGroup(b), last).value == b;
  }

  lemma PaddedGroupRoundTrip(b: string)
    requires 1 <= |b| <= 2 && IsBytes(b)
    ensures DecodeGroup(EncodeGroup(b), true) == Some(b)
  {
    var x := b[0] as int;
    var y := if |b| > 1 then b[1] as int else 0;
    Octets(x, y, 0);
    SymbolInverse(x / 4, '=');
    SymbolInverse(x % 4 * 16 + y / 16, '=');
    SymbolInverse(y % 16 * 4, '=');
    assert DecodeGroup(EncodeGroup(b), true).value == b;
  }

  /** The encoding of bytes put together from sextets. */
  lemma EncodeSextets(a: int, b: int, c: int, d: int)
    requires 0 <= a < 64 && 0 <= b < 64 && 0 <= c < 64 && 0 <= d < 64
    ensures var group := [(a * 4 + b / 16) as char, (b % 16 * 16 + c / 4) as char, (c % 4 * 64 + d) as char];
            IsBytes(group) && EncodeGroup(group) == [Symbol(a), Symbol(b), Symbol(c), Symbol(d)]
  {
    Sextets(a, b, c, d);
  }

  lemma EncodeTwo(a: int, b: int, c: int)
    requires 0 <= a < 64 && 0 <= b < 64 && 0 <= c < 64 && c % 4 == 0
    ensures var group := [(a * 4 + b / 16) as char, (b % 16 * 16 + c / 4) as char];
            IsBytes(group) && EncodeGroup(group) == [Symbol(a), Symbol(b), Symbol(c), '=']
  {
    Sextets(a, b, c, 0);
  }

  lemma EncodeOne(a: int, b: int)
    requires 0 <= a < 64 && 0 <= b < 64 && b % 16 == 0
    ensures IsBytes([(a * 4 + b / 16) as char])
            && EncodeGroup([(a * 4 + b / 16) as char]) == [Symbol(a), Symbol(b), '=', '=']
  {
    Sextets(a, b, 0, 0);
  }

  lemma FullGroupCanonical(s: string, last: bool)
    requires |s| == 4 && DecodeGroup(s, last).Some? && s[3] != '='
    ensures var b := DecodeGroup(s, last).value; |b| == 3 && IsBytes(b) && EncodeGroup(b) == s
  {
    var (a, b, c, d) := (SymbolValue(s[0]), SymbolValue(s[1]), SymbolValue(s[2]), SymbolValue(s[3]));
    SymbolsInverse(s);
    EncodeSextets(a, b, c, d);
    assert DecodeGroup(s, last).value == [(a * 4 + b / 16) as char, (b % 16 * 16 + c / 4) as char,
           (c % 4 * 64 + d) as char];
    assert s == [s[0], s[1], s[2], s[3]];
  }

  lemma HalfGroupCanonical(s: string, last: bool)
    requires |s| == 4 && DecodeGroup(s, last).Some? && s[2] != '=' && s[3] == '='
    ensures var b := DecodeGroup(s, last).value; |b| == 2 && IsBytes(b) && EncodeGroup(b) == s && last
  {
    var (a, b, c) := (SymbolValue(s[0]), SymbolValue(s[1]), SymbolValue(s[2]));
    SymbolsInverse(s);
    EncodeTwo(a, b, c);
    assert DecodeGroup(s, last).value == [(a * 4 + b / 16) as char, (b % 16 * 16 + c / 4) as char];
    assert s == [s[0], s[1], s[2], s[3]];
  }

  lemma OneGroupCanonical(s: string, last: bool)
    requires |s| == 4 && DecodeGroup(s, last).Some? && s[2] == '='
    ensures var b := DecodeGroup(s, last).value; |b| == 1 && IsBytes(b) && EncodeGroup(b) == s && last
  {
    var (a, b) := (SymbolValue(s[0]), SymbolValue(s[1]));
    SymbolsInverse(s);
    EncodeOne(a, b);
    assert DecodeGroup(s, last).value == [(a * 4 + b / 16) as char];
    assert s == [s[0], s[1], s[2], s[3]];
  }

  lemma SymbolsInverse(s: string)
    ensures forall i :: 0 <= i < |s| && SymbolValue(s[i]) >= 0 ==>
            SymbolValue(s[i]) < 64 && Symbol(SymbolValue(s[i])) == s[i]
  {
    forall i | 0 <= i < |s| && SymbolValue(s[i]) >= 0 ensures SymbolValue(s[i]) < 64
        && Symbol(SymbolValue(s[i])) == s[i] {
      SymbolInverse(0, s[i]);
    }
  }

  lemma GroupCanonical(s: string, last: bool)
    requires |s| == 4 && DecodeGroup(s, last).Some?
    ensures var b := DecodeGroup(s, last).value;
            1 <= |b| <= 3 && IsBytes(b) && EncodeGroup(b) == s && (!last ==> |b| == 3)
  {
    if s[3] != '=' { FullGroupCanonical(s, last); }
        else if s[2] != '=' { HalfGroupCanonical(s, last); } else { OneGroupCanonical(s, last); }
  }

  lemma {:induction false} GroupsRoundTrip(b: string)
    requires IsBytes(b)
    ensures DecodeGroups(Encode(b)) == Some(b)
  {
    if b == "" {
    } else if |b| <= 3 {
      if |b| == 3 { FullGroupRoundTrip(b, true); } else { PaddedGroupRoundTrip(b); }
      assert Encode(b)[..4] == Encode(b) && Encode(b)[4..] == "";
      assert b + "" == b;
    } else {
      FullGroupRoundTrip(b[..3], false);
      GroupsRoundTrip(b[3..]);
      var s := Encode(b);
      assert s[..4] == EncodeGroup(b[..3]) && s[4..] == Encode(b[3..]);
      assert b[..3] + b[3..] == b;
    }
  }

  lemma {:induction false} GroupsCanonical(s: string)
    requires |s| % 4 == 0 && DecodeGroups(s).Some?
    ensures IsBytes(DecodeGroups(s).value) && Encode(DecodeGroups(s).value) == s
  {
    if s != "" {
      GroupCanonical(s[..4], |s| == 4);
      GroupsCanonical(s[4..]);
      var group := DecodeGroup(s[..4], |s| == 4).value;
      var rest := DecodeGroups(s[4..]).value;
      assert s == s[..4] + s[4..];
      if |s| == 4 {
        assert rest == "" && group + rest == group;
      } else {
        assert rest != "";
        assert (group + rest)[..3] == group && (group + rest)[3..] == rest;
      }
    }
  }

  predicate Fits(b: string) { IsBytes(b) && 0 < |b| <= MAX_RULE_SET }

  lemma DecodeOnlyEncodings(s: string)
    requires Decode(s).Some?
    ensures Fits(Decode(s).value) && Encode(Decode(s).value) == s
  {
    GroupsCanonical(s);
  }

  lemma EncodedSize(n: nat)
    requires 0 < n <= MAX_RULE_SET
    ensures 0 < (n + 2) / 3 * 4 <= MAX_ENCODED && (n + 2) / 3 * 4 % 4 == 0
  {
  }

  lemma DecodeAllEncodings(b: string)
    requires Fits(b)
    ensures Decode(Encode(b)) == Some(b)
  {
    GroupsRoundTrip(b);
    EncodedSize(|b|);
  }

  /** Accepted are exactly the canonical encodings of one to 128 KiB of bytes. */
  lemma DecodeExact(s: string, b: string)
    ensures Decode(s) == Some(b) <==> Fits(b) && s == Encode(b)
  {
    if Decode(s).Some? { DecodeOnlyEncodings(s); }
    if Fits(b) { DecodeAllEncodings(b); }
  }

  lemma {:induction false} EncodePlain(b: string)
    requires IsBytes(b)
    ensures Without(Encode(b), '\n') && Without(Encode(b), '\r')
  {
    if |b| > 3 { EncodePlain(b[3..]); }
  }
}
