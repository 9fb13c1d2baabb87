/** The text primitives the durable formats and the wire bodies share. */
module Text {
  import opened Wrappers

  /** A C++ std::string holds bytes. */
  predicate IsBytes(s: string) { forall i :: 0 <= i < |s| ==> s[i] < 256 as char }

  predicate Without(s: string, d: char) { d !in s }

  predicate StartsWith(s: string, prefix: string) { |prefix| <= |s| && s[..|prefix|] == prefix }

  // ----- fields -----------------------------------------------------------------

  function Split(s: string, d: char): (fields: seq<string>)
    ensures |fields| >= 1
  {
    if s == "" then [""]
    else
      var rest := Split(s[1..], d);
      if s[0] == d then [""] + rest else [[s[0]] + rest[0]] + rest[1..]
  }

  function Join(fields: seq<string>, d: char): string
    requires |fields| >= 1
  {
    if |fields| == 1 then fields[0] else fields[0] + [d] + Join(fields[1..], d)
  }

  lemma {:induction false} SplitFirst(s: string, d: char, i: nat)
    requires i < |s| && s[i] == d && Without(s[..i], d)
    ensures Split(s, d) == [s[..i]] + Split(s[i + 1..], d)
    decreases i
  {
    if i > 0 {
      assert s[0] == s[..i][0];
      assert s[1..][..i - 1] == s[..i][1..] && s[1..][i..] == s[i + 1..];
      SplitFirst(s[1..], d, i - 1);
      assert [s[0]] + s[..i][1..] == s[..i];
    }
  }

  lemma {:induction false} SplitLast(s: string, d: char)
    requires Without(s, d)
    ensures Split(s, d) == [s]
  {
    if s != "" {
      SplitLast(s[1..], d);
      assert [s[0]] + s[1..] == s;
    }
  }

  lemma {:induction false} SplitJoin(fields: seq<string>, d: char)
    requires |fields| >= 1 && forall i :: 0 <= i < |fields| ==> Without(fields[i], d)
    ensures Split(Join(fields, d), d) == fields
  {
    if |fields| == 1 {
      SplitLast(fields[0], d);
    } else {
      var s := Join(fields, d);
      SplitJoin(fields[1..], d);
      assert s[..|fields[0]|] == fields[0] && s[|fields[0]| + 1..] == Join(fields[1..], d);
      SplitFirst(s, d, |fields[0]|);
    }
  }

  lemma {:induction false} JoinSplit(s: string, d: char)
    ensures Join(Split(s, d), d) == s
    ensures forall i :: 0 <= i < |Split(s, d)| ==> Without(Split(s, d)[i], d)
  {
    if s != "" {
      JoinSplit(s[1..], d);
      var rest := Split(s[1..], d);
      if s[0] == d {
        assert ([""] + rest)[1..] == rest;
      } else {
        var fields := [[s[0]] + rest[0]] + rest[1..];
        assert fields[1..] == rest[1..];
        assert Without(fields[0], d);
      }
    }
  }

  /** Puts a character before the first field, or opens a new one. */
  function Cons(c: char, fields: seq<string>, d: char): seq<string> requires |fields| >= 1 {
    if c == d then [""] + fields else [[c] + fields[0]] + fields[1..]
  }

  lemma SplitCons(c: char, s: string, d: char)
    ensures Split([c] + s, d) == Cons(c, Split(s, d), d)
  {
    assert ([c] + s)[1..] == s;
  }

  lemma ConsConcat(c: char, a: seq<string>, b: seq<string>, d: char)
    requires |a| >= 1
    ensures Cons(c, a + b, d) == Cons(c, a, d) + b
  {
    assert (a + b)[1..] == a[1..] + b;
  }

  lemma {:induction false} SplitConcat(a: string, b: string, d: char)
    ensures Split(a + [d] + b, d) == Split(a, d) + Split(b, d)
  {
    if a == "" {
      assert a + [d] + b == [d] + b;
      SplitCons(d, b, d);
    } else {
      var rest := a[1..] + [d] + b;
      SplitConcat(a[1..], b, d);
      assert a + [d] + b == [a[0]] + rest;
      SplitCons(a[0], rest, d);
      ConsConcat(a[0], Split(a[1..], d), Split(b, d), d);
      assert a == [a[0]] + a[1..];
      SplitCons(a[0], a[1..], d);
    }
  }

  /** Joined fields split into at least as many, and into as many only if none held a delimiter. */
  lemma {:induction false} JoinCounts(fields: seq<string>, d: char)
    requires |fields| >= 1
    ensures |Split(Join(fields, d), d)| >= |fields|
    ensures |Split(Join(fields, d), d)| == |fields| ==> Split(Join(fields, d), d) == fields
  {
    if |fields| == 1 {
      JoinSplit(fields[0], d);
    } else {
      var rest := fields[1..];
      JoinCounts(rest, d);
      SplitConcat(fields[0], Join(rest, d), d);
      JoinSplit(fields[0], d);
      assert |Split(fields[0], d)| == 1 ==> Split(fields[0], d) == [fields[0]];
      assert fields == [fields[0]] + rest;
    }
  }

  // ----- fixed layouts ------------------------------------------------------------

  /** Fields of the given widths, separated by `d` at their exact offsets. */
  function Cut(body: string, widths: seq<nat>, d: char): Option<seq<string>>
    requires |widths| >= 1
  {
    if |widths| == 1 then if |body| == widths[0] then Some([body]) else None
    else if |body| <= widths[0] || body[widths[0]] != d then None
    else
      var rest := Cut(body[widths[0] + 1..], widths[1..], d);
      if rest.None? then None else Some([body[..widths[0]]] + rest.value)
  }

  lemma {:induction false} CutJoins(body: string, widths: seq<nat>, d: char)
    requires |widths| >= 1 && Cut(body, widths, d).Some?
    ensures var fields := Cut(body, widths, d).value;
            && |fields| == |widths| && Join(fields, d) == body
            && forall i :: 0 <= i < |fields| ==> |fields[i]| == widths[i]
  {
    if |widths| > 1 {
      var w := widths[0];
      CutJoins(body[w + 1..], widths[1..], d);
      var fields := Cut(body, widths, d).value;
      assert fields[1..] == Cut(body[w + 1..], widths[1..], d).value;
      assert body == body[..w] + [d] + body[w + 1..];
    }
  }

  lemma {:induction false} CutJoin(fields: seq<string>, widths: seq<nat>, d: char)
    requires |fields| == |widths| >= 1 && forall i :: 0 <= i < |fields| ==> |fields[i]| == widths[i]
    ensures Cut(Join(fields, d), widths, d) == Some(fields)
  {
    if |fields| > 1 {
      var body := Join(fields, d);
      assert body[..widths[0]] == fields[0] && body[widths[0] + 1..] == Join(fields[1..], d);
      CutJoin(fields[1..], widths[1..], d);
      assert fields == [fields[0]] + fields[1..];
    } else {
      assert fields == [fields[0]];
    }
  }

  /** Counting separators: fields that join into a cut body without stray delimiters are that cut. */
  lemma CutUnique(fields: seq<string>, widths: seq<nat>, d: char)
    requires |fields| == |widths| >= 1 && Cut(Join(fields, d), widths, d).Some?
    requires forall i :: 0 <= i < |widths| ==>
             Cut(Join(fields, d), widths, d).Some? && i < |Cut(Join(fields, d), widths, d).value|
                                               && Without(Cut(Join(fields, d), widths, d).value[i], d)
    ensures Cut(Join(fields, d), widths, d) == Some(fields)
  {
    var body := Join(fields, d);
    CutJoins(body, widths, d);
    SplitJoin(Cut(body, widths, d).value, d);
    JoinCounts(fields, d);
  }

  /** The first `n` delimiters separate; the rest is one field. */
  function Head(body: string, d: char, n: nat): Option<seq<string>>
    decreases n
  {
    if n == 0 then Some([body])
    else
      var fields := Split(body, d);
      var w := |fields[0]|;
      if |fields| == 1 || |body| <= w then None
      else
        var rest := Head(body[w + 1..], d, n - 1);
        if rest.None? then None else Some([fields[0]] + rest.value)
  }

  lemma {:induction false} HeadJoin(fields: seq<string>, d: char)
    requires |fields| >= 1 && forall i :: 0 <= i < |fields| - 1 ==> Without(fields[i], d)
    ensures Head(Join(fields, d), d, |fields| - 1) == Some(fields)
  {
    if |fields| > 1 {
      var body := Join(fields, d);
      var w := |fields[0]|;
      assert body[..w] == fields[0] && body[w] == d && body[w + 1..] == Join(fields[1..], d);
      SplitFirst(body, d, w);
      HeadJoin(fields[1..], d);
      assert fields == [fields[0]] + fields[1..];
    } else {
      assert fields == [fields[0]];
    }
  }

  /** std::string::find from an offset; the length stands for npos. */
  method Find(s: string, d: char, start: nat) returns (end: nat)
    requires start <= |s|
    ensures start <= end <= |s| && Without(s[start..end], d) && (end < |s| ==> s[end] == d)
  {
    end := start;
    while end < |s| && s[end] != d
      invariant start <= end <= |s| && Without(s[start..end], d)
    {
      end := end + 1;
    }
  }

  lemma SplitStep(s: string, d: char, start: nat, end: nat)
    requires start <= end <= |s| && Without(s[start..end], d) && (end < |s| ==> s[end] == d)
    ensures Split(s[start..], d) == [s[start..end]] + (if end == |s| then [] else Split(s[end + 1..], d))
  {
    if end == |s| {
      SplitLast(s[start..], d);
      assert s[start..end] == s[start..];
    } else {
      var t := s[start..];
      assert t[..end - start] == s[start..end] && t[end - start + 1..] == s[end + 1..];
      SplitFirst(t, d, end - start);
    }
  }

  /** The scanning loop: each field runs to the next delimiter. */
  method SplitFields(s: string, d: char) returns (fields: seq<string>)
    ensures fields == Split(s, d)
  {
    fields := [];
    var start := 0;
    assert s[0..] == s;
    while true
      invariant 0 <= start <= |s|
      invariant fields + Split(s[start..], d) == Split(s, d)
      decreases |s| - start
    {
      var end := Find(s, d, start);
      SplitStep(s, d, start, end);
      fields := fields + [s[start..end]];
      if end == |s| { return; }
      start := end + 1;
    }
  }

  // ----- hexadecimal --------------------------------------------------------------

  predicate IsHexDigit(c: char) { '0' <= c <= '9' || 'a' <= c <= 'f' }
  function Digit(n: int): char requires 0 <= n < 16 { if n < 10 then '0' + n as char else 'a' + (n - 10) as char }
  function Nibble(c: char): int {
    if '0' <= c <= '9' then (c - '0') as int else if 'a' <= c <= 'f' then (c - 'a') as int + 10 else -1
  }

  function Hex(s: string): (h: string)
    requires IsBytes(s)
    ensures |h| == 2 * |s|
  {
    if s == "" then "" else [Digit(s[0] as int / 16), Digit(s[0] as int % 16)] + Hex(s[1..])
  }

  function Unhex(h: string): Option<string> {
    if |h| % 2 != 0 then None
    else if h == "" then Some("")
    else
      var (high, low) := (Nibble(h[0]), Nibble(h[1]));
      var rest := Unhex(h[2..]);
      if high < 0 || low < 0 || rest.None? then None else Some([(high * 16 + low) as char] + rest.value)
  }

  lemma {:induction false} HexRoundTrip(s: string)
    requires IsBytes(s)
    ensures Unhex(Hex(s)) == Some(s)
    ensures forall i :: 0 <= i < |Hex(s)| ==> IsHexDigit(Hex(s)[i])
  {
    if s != "" {
      HexRoundTrip(s[1..]);
      assert Hex(s)[2..] == Hex(s[1..]);
      assert [s[0]] + s[1..] == s;
    }
  }

  /** Only the lower-case encoding of the bytes decodes to them. */
  lemma {:induction false} UnhexCanonical(h: string)
    requires Unhex(h).Some?
    ensures IsBytes(Unhex(h).value) && Hex(Unhex(h).value) == h
  {
    if h != "" {
      UnhexCanonical(h[2..]);
      var s := Unhex(h).value;
      assert s[1..] == Unhex(h[2..]).value;
      assert h == [h[0], h[1]] + h[2..];
    }
  }

  method HexEncode(s: string) returns (h: string)
    requires IsBytes(s)
    ensures h == Hex(s)
  {
    h := "";
    var i := 0;
    while i < |s|
      invariant 0 <= i <= |s| && h + Hex(s[i..]) == Hex(s)
    {
      h := h + [Digit(s[i] as int / 16), Digit(s[i] as int % 16)];
      i := i + 1;
    }
  }

  lemma UnhexStep(h: string, i: nat)
    requires i + 2 <= |h| && i % 2 == 0 && |h| % 2 == 0
    ensures Unhex(h[i..]).Some? <==> Nibble(h[i]) >= 0 && Nibble(h[i + 1]) >= 0 && Unhex(h[i + 2..]).Some?
    ensures Unhex(h[i..]).Some? ==>
            Unhex(h[i..]).value == [(Nibble(h[i]) * 16 + Nibble(h[i + 1])) as char] + Unhex(h[i + 2..]).value
  {
    assert h[i..][2..] == h[i + 2..];
  }

  /** What is decoded so far, before what the rest decodes to. */
  ghost predicate Decoded(h: string, i: nat, s: string) requires i <= |h| {
    && (Unhex(h).Some? <==> Unhex(h[i..]).Some?)
    && (Unhex(h).Some? ==> Unhex(h).value == s + Unhex(h[i..]).value)
  }

  method HexDecode(h: string, limit: nat) returns (r: Option<string>)
    ensures r == if |h| > limit then None else Unhex(h)
  {
    if |h| % 2 != 0 || |h| > limit { return None; }
    var s := "";
    var i := 0;
    assert h[0..] == h;
    while i < |h|
      invariant 0 <= i <= |h| && i % 2 == 0 && Decoded(h, i, s)
    {
      UnhexStep(h, i);
      if Nibble(h[i]) < 0 || Nibble(h[i + 1]) < 0 { return None; }
      s := s + [(Nibble(h[i]) * 16 + Nibble(h[i + 1])) as char];
      i := i + 2;
    }
    assert Unhex(h[i..]) == Some("");
    assert Unhex(h).value == s;
    return Some(s);
  }

  // ----- decimal --------------------------------------------------------------------

  predicate IsDigit(c: char) { '0' <= c <= '9' }

  function Decimal(n: nat): (s: string)
    ensures |s| > 0 && forall i :: 0 <= i < |s| ==> IsDigit(s[i])
  {
    if n < 10 then ['0' + n as char] else Decimal(n / 10) + ['0' + (n % 10) as char]
  }

  function Value(s: string): Option<nat> {
    if s == "" then None
    else if !IsDigit(s[|s| - 1]) then None
    else if |s| == 1 then Some((s[0] - '0') as nat)
    else
      var front := Value(s[..|s| - 1]);
      if front.None? then None else Some(front.value * 10 + (s[|s| - 1] - '0') as nat)
  }

  lemma {:induction false} DecimalRoundTrip(n: nat)
    ensures Value(Decimal(n)) == Some(n)
  {
    if n >= 10 {
      DecimalRoundTrip(n / 10);
      var s := Decimal(n);
      assert s[..|s| - 1] == Decimal(n / 10);
    }
  }

  /** ParseUnsigned: all digits, and within the width of the target type. */
  function ParseUnsigned(s: string, max: nat): Option<nat> {
    if Value(s).Some? && Value(s).value <= max then Value(s) else None
  }

  lemma {:induction false} DecimalSize(n: nat, k: nat, power: nat)
    requires k >= 1 && power == Pow10(k) && n < power
    ensures |Decimal(n)| <= k
    decreases k
  {
    if n >= 10 { DecimalSize(n / 10, k - 1, Pow10(k - 1)); }
  }

  function Pow10(k: nat): nat { if k == 0 then 1 else 10 * Pow10(k - 1) }
}
