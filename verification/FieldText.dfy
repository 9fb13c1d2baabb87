/**
 Texts of `name=value` fields joined by semicolons: found again by searching for
 `;name=`, cut out in blocks, and read one after another at a moving offset.
 */
module FieldText {
  import opened Wrappers
  import opened Text
  import opened Substring

  datatype Field = Field(name: string, value: string)

  predicate IsName(name: string) { name != "" && Without(name, ';') && Without(name, '=') }
  predicate IsValue(value: string) { value != "" && Without(value, ';') }
  predicate IsField(f: Field) { IsName(f.name) && IsValue(f.value) }
  predicate AreFields(fields: seq<Field>) { forall i :: 0 <= i < |fields| ==> IsField(fields[i]) }
  predicate NoName(fields: seq<Field>, name: string) { forall i :: 0 <= i < |fields| ==> fields[i].name != name }

  function Show(f: Field): string { f.name + "=" + f.value }
  function Needle(name: string): string { ";" + name + "=" }

  /** Every field behind its own separator. */
  function Tail(fields: seq<Field>): string { if fields == [] then "" else ";" + (Show(fields[0]) + Tail(fields[1..])) }
  function Write(fields: seq<Field>): string requires |fields| >= 1 { Show(fields[0]) + Tail(fields[1..]) }

  lemma Regroup(a: string, b: string, c: string, d: string)
    ensures a + (b + (c + d)) == a + (b + c) + d
    ensures (a + b) + c == a + (b + c)
  {
  }

  lemma {:induction false} TailConcat(a: seq<Field>, b: seq<Field>)
    ensures Tail(a + b) == Tail(a) + Tail(b)
  {
    if a == [] {
      assert a + b == b;
    } else {
      TailConcat(a[1..], b);
      assert (a + b)[0] == a[0] && (a + b)[1..] == a[1..] + b;
      Regroup(";", Show(a[0]), Tail(a[1..]), Tail(b));
    }
  }

  lemma TailCons(f: Field, b: seq<Field>)
    ensures Tail([f] + b) == ";" + (Show(f) + Tail(b))
  {
    assert ([f] + b)[1..] == b;
  }

  lemma ShowPlain(f: Field)
    requires IsField(f)
    ensures Without(Show(f), ';')
  {
  }

  /** A text that begins with a field begins with no other field's name. */
  lemma Begins(f: Field, rest: string, name: string)
    requires IsField(f) && IsName(name)
    ensures StartsWith(Show(f) + rest, name + "=") <==> f.name == name
  {
    assert Show(f) + rest == f.name + "=" + (f.value + rest);
    SamePiece(f.name, f.value + rest, name, '=');
  }

  // ----- searching for a field ------------------------------------------------------------------

  lemma NeedleFirst(s: string, t: string, name: string)
    requires Without(s, ';')
    ensures var r := First(t, Needle(name));
            First(s + ";" + t, Needle(name))
            == if StartsWith(t, name + "=") then Some(|s|) else if r.None? then None else Some(|s| + 1 + r.value)
  {
    NeedleParts(name);
    PieceStarts(s, t, Needle(name));
  }

  lemma NeedleParts(name: string)
    ensures Needle(name)[0] == ';' && Needle(name)[1..] == name + "="
  {
  }

  lemma PieceStarts(s: string, t: string, needle: string)
    requires Without(s, ';') && |needle| >= 1 && needle[0] == ';'
    ensures First(s + ";" + t, needle)
            == if StartsWith(t, needle[1..]) then Some(|s|)
                else if First(t, needle).None? then None else Some(|s| + 1 + First(t, needle).value)
  {
    PieceFirst(s, ';', t, needle);
  }

  /** One step of the search for `;name=`, past a piece without separators. */
  lemma SearchStep(s: string, f: Field, rest: seq<Field>, name: string)
    requires Without(s, ';') && IsField(f) && IsName(name)
    ensures var r := First(Show(f) + Tail(rest), Needle(name));
            First(s + Tail([f] + rest), Needle(name))
            == if f.name == name then Some(|s|) else if r.None? then None else Some(|s| + 1 + r.value)
  {
    var t := Show(f) + Tail(rest);
    TailCons(f, rest);
    Regroup(s, ";", t, "");
    Begins(f, Tail(rest), name);
    NeedleFirst(s, t, name);
  }

  /** The first field of a name is what the search finds. */
  lemma {:induction false} FirstField(s: string, a: seq<Field>, b: seq<Field>)
    requires Without(s, ';') && AreFields(a) && |b| >= 1 && IsField(b[0]) && NoName(a, b[0].name)
    ensures First(s + Tail(a + b), Needle(b[0].name)) == Some(|s| + |Tail(a)|)
    decreases |a|
  {
    if a == [] {
      assert a + b == [b[0]] + b[1..];
      SearchStep(s, b[0], b[1..], b[0].name);
    } else {
      assert a + b == [a[0]] + (a[1..] + b) && a == [a[0]] + a[1..];
      TailCons(a[0], a[1..]);
      SearchStep(s, a[0], a[1..] + b, b[0].name);
      ShowPlain(a[0]);
      FirstField(Show(a[0]), a[1..], b);
    }
  }

  lemma {:induction false} NoField(s: string, fields: seq<Field>, name: string)
    requires Without(s, ';') && AreFields(fields) && IsName(name) && NoName(fields, name)
    ensures First(s + Tail(fields), Needle(name)).None?
    decreases |fields|
  {
    if fields == [] {
      assert s + Tail(fields) == s;
      PieceMiss(s, Needle(name));
    } else {
      assert fields == [fields[0]] + fields[1..];
      SearchStep(s, fields[0], fields[1..], name);
      ShowPlain(fields[0]);
      NoField(Show(fields[0]), fields[1..], name);
    }
  }

  lemma Behind(s: string, t: string, u: string)
    ensures s + (t + (";" + u)) == (s + t) + (";" + u)
    ensures (s + (t + (";" + u)))[|s| + |t| + 1..] == u
  {
  }

  /** A search for `;name=` succeeds exactly when a field has that name. */
  lemma {:induction false} Found(s: string, fields: seq<Field>, name: string)
    requires Without(s, ';') && AreFields(fields) && IsName(name)
    ensures First(s + Tail(fields), Needle(name)).Some? <==> !NoName(fields, name)
    decreases |fields|
  {
    if fields == [] || NoName(fields, name) {
      NoField(s, fields, name);
    } else {
      assert fields == [fields[0]] + fields[1..];
      SearchStep(s, fields[0], fields[1..], name);
      ShowPlain(fields[0]);
      Found(Show(fields[0]), fields[1..], name);
    }
  }

  lemma TailAt(s: string, a: seq<Field>, b: seq<Field>)
    requires |b| >= 1
    ensures s + Tail(a + b) == (s + Tail(a)) + Tail(b) && |Tail(b)| >= 1
    ensures (s + Tail(a + b))[|s| + |Tail(a)| + 1..] == Show(b[0]) + Tail(b[1..])
  {
    TailConcat(a, b);
    Behind(s, Tail(a), Show(b[0]) + Tail(b[1..]));
  }

  lemma TailBehind(s: string, a: seq<Field>, b: seq<Field>)
    requires |b| >= 1
    ensures |s| + |Tail(a)| < |s + Tail(a + b)|
    ensures (s + Tail(a + b))[|s| + |Tail(a)| + 1..] == Show(b[0]) + Tail(b[1..])
  {
    TailAt(s, a, b);
  }

  /** Behind its separator the field's name does not begin another field. */
  lemma RestMisses(b: seq<Field>)
    requires |b| >= 1 && AreFields(b) && NoName(b[1..], b[0].name)
    ensures First(Show(b[0]) + Tail(b[1..]), Needle(b[0].name)).None?
  {
    ShowPlain(b[0]);
    NoField(Show(b[0]), b[1..], b[0].name);
  }

  /** A field that is alone in having its name is found from either end, at the size of the text before it. */
  lemma OnlyField(s: string, a: seq<Field>, b: seq<Field>)
    requires Without(s, ';') && AreFields(a) && |b| >= 1 && AreFields(b) && NoName(a, b[0].name)
             && NoName(b[1..], b[0].name)
    ensures Only(s + Tail(a + b), Needle(b[0].name), |s| + |Tail(a)|)
  {
    FirstField(s, a, b);
    TailBehind(s, a, b);
    RestMisses(b);
    OnlyAt(s + Tail(a + b), Needle(b[0].name), |s| + |Tail(a)|, Show(b[0]) + Tail(b[1..]));
  }

  // ----- cutting a block out ----------------------------------------------------------------

  datatype Block = Block(body: string, rest: string)

  /** The text from one needle up to the other or the end, without its separator, and what is left. */
  function CutBlock(text: string, from: string, to: string): Option<Block> {
    var start := First(text, from);
    if start.None? then None
    else
      var end := FindFrom(text, to, start.value);
      var stop := if end.None? then |text| else end.value;
      var block := text[start.value..stop];
      Some(Block(if block == "" then "" else block[1..], text[..start.value] + text[stop..]))
  }

  lemma CutText(t: string, i: nat, j: nat, y: string, z: string, from: string, to: string)
    requires i < j <= |t| && First(t, from) == Some(i) && t[i..j] == y && t[j..] == z
    requires First(t[i..], to) == if z == "" then None else Some(j - i)
    ensures CutBlock(t, from, to) == Some(Block(y[1..], t[..i] + z))
  {
  }

  lemma Parts(t: string, x: string, y: string, z: string)
    requires t == x + (y + z)
    ensures |t| == |x| + |y| + |z|
    ensures t[|x|..] == y + z && t[|x|..|x| + |y|] == y && t[..|x|] == x && t[|x| + |y|..] == z
  {
  }

  lemma CutWhole(t: string, x: string, y: string, z: string, from: string, to: string)
    requires t == x + (y + z) && y != "" && First(t, from) == Some(|x|)
    requires First(y + z, to) == if z == "" then None else Some(|y|)
    ensures CutBlock(t, from, to) == Some(Block(y[1..], x + z))
  {
    Parts(t, x, y, z);
    CutText(t, |x|, |x| + |y|, y, z, from, to);
  }

  lemma CutShape(s: string, a: seq<Field>, block: seq<Field>, c: seq<Field>)
    ensures s + Tail(a + block + c) == (s + Tail(a)) + (Tail(block) + Tail(c))
    ensures s + Tail(a + c) == (s + Tail(a)) + Tail(c)
  {
    assert a + block + c == a + (block + c);
    Grouped(s, a, block + c);
    TailConcat(block, c);
    Grouped(s, a, c);
  }

  lemma CutStart(s: string, a: seq<Field>, block: seq<Field>, c: seq<Field>)
    requires Without(s, ';') && AreFields(a) && AreFields(block) && |block| >= 1 && NoName(a, block[0].name)
    ensures First(s + Tail(a + block + c), Needle(block[0].name)) == Some(|s + Tail(a)|)
  {
    assert a + block + c == a + (block + c) && (block + c)[0] == block[0];
    FirstField(s, a, block + c);
  }

  /** A block is cut out whole: from the first field of its name to the next field that ends it. */
  lemma CutAt(s: string, a: seq<Field>, block: seq<Field>, c: seq<Field>, to: string)
    requires Without(s, ';') && AreFields(a) && AreFields(block) && AreFields(c) && |block| >= 1 && IsName(to)
    requires NoName(a, block[0].name) && NoName(block, to) && (c != [] ==> c[0].name == to)
    ensures CutBlock(s + Tail(a + block + c), Needle(block[0].name), Needle(to))
            == Some(Block(Write(block), s + Tail(a + c)))
  {
    CutStart(s, a, block, c);
    CutShape(s, a, block, c);
    BlockEnd(block, c, to);
    CutWhole(s + Tail(a + block + c), s + Tail(a), Tail(block), Tail(c), Needle(block[0].name), Needle(to));
  }

  lemma Grouped(s: string, a: seq<Field>, c: seq<Field>)
    ensures s + Tail(a + c) == (s + Tail(a)) + Tail(c)
  {
    TailConcat(a, c);
    Regroup(s, Tail(a), Tail(c), "");
  }

  lemma BlockEnd(block: seq<Field>, c: seq<Field>, to: string)
    requires AreFields(block) && AreFields(c) && IsName(to) && NoName(block, to) && (c != [] ==> c[0].name == to)
    ensures First(Tail(block) + Tail(c), Needle(to)) == if Tail(c) == "" then None else Some(|Tail(block)|)
  {
    TailConcat(block, c);
    assert "" + Tail(block + c) == Tail(block + c);
    if c == [] {
      assert block + c == block;
      NoField("", block, to);
    } else {
      FirstField("", block, c);
    }
  }

  lemma CutNone(s: string, fields: seq<Field>, from: string, to: string)
    requires Without(s, ';') && AreFields(fields) && IsName(from) && NoName(fields, from)
    ensures CutBlock(s + Tail(fields), Needle(from), Needle(to)).None?
  {
    NoField(s, fields, from);
  }

  lemma EmptyMiddle(a: seq<Field>, block: seq<Field>, c: seq<Field>)
    requires block == []
    ensures a + block + c == a + c
  {
  }

  /** An optional block, given that nothing else begins with its name. */
  lemma CutOptional(s: string, a: seq<Field>, block: seq<Field>, c: seq<Field>, from: string, to: string)
    requires Without(s, ';') && AreFields(a) && AreFields(block) && AreFields(c) && IsName(from) && IsName(to)
    requires NoName(a, from) && NoName(c, from) && NoName(block, to) && (block != [] ==> block[0].name == from)
    requires c != [] ==> c[0].name == to
    ensures CutBlock(s + Tail(a + block + c), Needle(from), Needle(to))
            == if block == [] then None else Some(Block(Write(block), s + Tail(a + c)))
  {
    if block == [] {
      EmptyMiddle(a, block, c);
      CutNone(s, a + c, from, to);
    } else {
      CutAt(s, a, block, c, to);
    }
  }

  lemma CutMiddle(a: seq<Field>, block: seq<Field>, c: seq<Field>, from: string, to: string)
    requires |a| >= 1 && AreFields(a) && AreFields(block) && AreFields(c) && IsName(from) && IsName(to)
    requires NoName(a[1..], from) && NoName(c, from) && NoName(block, to) && (block != [] ==> block[0].name == from)
    requires c != [] ==> c[0].name == to
    ensures CutBlock(Write(a + block + c), Needle(from), Needle(to))
            == if block == [] then None else Some(Block(Write(block), Write(a + c)))
  {
    ShowPlain(a[0]);
    assert (a + block + c)[1..] == a[1..] + block + c && (a + c)[1..] == a[1..] + c;
    CutOptional(Show(a[0]), a[1..], block, c, from, to);
  }

  // ----- replacing a value --------------------------------------------------------------------

  /** The value behind the last occurrence of a needle, replaced in place. */
  function ReplaceField(text: string, needle: string, value: string): Option<string> {
    var field := Last(text, needle);
    if field.None? then None
    else
      Some(text[..field.value] + (needle + value) + if needle == "" then "" else FromNext(text, field.value + 1))
  }

  /** The text from the next separator on. */
  function FromNext(text: string, start: nat): string
    requires start <= |text|
  {
    var end := FindFrom(text, ";", start);
    if end.None? then "" else text[end.value..]
  }

  lemma FromNextIs(t: string, start: nat, j: nat, z: string)
    requires start <= j <= |t| && t[j..] == z && First(t[start..], ";") == if z == "" then None else Some(j - start)
    ensures FromNext(t, start) == z
  {
  }

  /** A separator-free piece ends at the next separator. */
  lemma PieceEnd(piece: string, z: string)
    requires Without(piece, ';') && (z != "" ==> z[0] == ';')
    ensures First(piece + z, ";") == if z == "" then None else Some(|piece|)
  {
    if z == "" {
      assert piece + z == piece;
      PieceMiss(piece, ";");
    } else {
      assert z == ";" + z[1..] && piece + z == piece + ";" + z[1..];
      PieceFirst(piece, ';', z[1..], ";");
    }
  }

  lemma ReplaceText(t: string, i: nat, j: nat, z: string, needle: string, value: string)
    requires i < j <= |t| && needle != "" && Last(t, needle) == Some(i) && t[j..] == z
    requires First(t[i + 1..], ";") == if z == "" then None else Some(j - i - 1)
    ensures ReplaceField(t, needle, value) == Some(t[..i] + (needle + value) + z)
  {
    FromNextIs(t, i + 1, j, z);
  }

  lemma ReplaceParts(t: string, x: string, piece: string, z: string)
    requires t == x + (";" + (piece + z))
    ensures t[..|x|] == x && t[|x| + 1..] == piece + z && t[|x| + 1 + |piece|..] == z && |t| == |x| + 1 + |piece| + |z|
  {
  }

  lemma ReplaceWhole(t: string, x: string, piece: string, z: string, needle: string, value: string)
    requires t == x + (";" + (piece + z)) && needle != "" && Last(t, needle) == Some(|x|)
    requires Without(piece, ';') && (z != "" ==> z[0] == ';')
    ensures ReplaceField(t, needle, value) == Some(x + (needle + value) + z)
  {
    PieceEnd(piece, z);
    ReplaceParts(t, x, piece, z);
    ReplaceText(t, |x|, |x| + 1 + |piece|, z, needle, value);
  }

  lemma Replaced(s: string, a: seq<Field>, f: Field, rest: seq<Field>)
    ensures s + Tail(a + ([f] + rest)) == (s + Tail(a)) + (Needle(f.name) + f.value) + Tail(rest)
  {
    Grouped(s, a, [f] + rest);
    TailCons(f, rest);
  }

  lemma TailHead(s: string, a: seq<Field>, b: seq<Field>)
    requires |b| >= 1
    ensures s + Tail(a + b) == (s + Tail(a)) + (";" + (Show(b[0]) + Tail(b[1..])))
    ensures Tail(b[1..]) != "" ==> Tail(b[1..])[0] == ';'
  {
    Grouped(s, a, b);
  }

  lemma OnlyLast(t: string, needle: string, s: string, u: string)
    requires Only(t, needle, |s| + |u|)
    ensures Last(t, needle) == Some(|s + u|)
  {
  }

  lemma ReplaceAt(s: string, a: seq<Field>, b: seq<Field>, value: string)
    requires Without(s, ';') && AreFields(a) && |b| >= 1 && AreFields(b) && NoName(a, b[0].name)
             && NoName(b[1..], b[0].name)
    ensures ReplaceField(s + Tail(a + b), Needle(b[0].name), value)
            == Some(s + Tail(a + ([Field(b[0].name, value)] + b[1..])))
  {
    OnlyField(s, a, b);
    OnlyLast(s + Tail(a + b), Needle(b[0].name), s, Tail(a));
    ShowPlain(b[0]);
    TailHead(s, a, b);
    ReplaceWhole(s + Tail(a + b), s + Tail(a), Show(b[0]), Tail(b[1..]), Needle(b[0].name), value);
    Replaced(s, a, Field(b[0].name, value), b[1..]);
  }

  /** A field that is alone in having its name, somewhere behind the first. */
  lemma ReplaceNth(fields: seq<Field>, i: nat, value: string)
    requires AreFields(fields) && 1 <= i < |fields|
    requires NoName(fields[1..i], fields[i].name) && NoName(fields[i + 1..], fields[i].name)
    ensures ReplaceField(Write(fields), Needle(fields[i].name), value)
            == Some(Write(fields[i := Field(fields[i].name, value)]))
  {
    var f := Field(fields[i].name, value);
    ShowPlain(fields[0]);
    Around(fields, i, f);
    ReplaceAt(Show(fields[0]), fields[1..i], fields[i..], value);
  }

  lemma Around(fields: seq<Field>, i: nat, f: Field)
    requires 1 <= i < |fields|
    ensures fields[1..] == fields[1..i] + fields[i..] && fields[i..][0] == fields[i]
            && fields[i..][1..] == fields[i + 1..]
    ensures fields[i := f][0] == fields[0] && fields[i := f][1..] == fields[1..i] + ([f] + fields[i + 1..])
  {
  }

  // ----- reading at a moving offset -------------------------------------------------------------

  datatype Read = Read(value: string, next: nat)

  function ReadField(body: string, offset: nat, name: string, last: bool): (r: Option<Read>)
    requires offset <= |body|
    ensures r.Some? ==> r.value.next <= |body|
  {
    if !StartsWith(body[offset..], name + "=") then None
    else
      var start := offset + |name| + 1;
      var end := if last then Some(|body|) else FindFrom(body, ";", start);
      if end.None? || end.value == start then None
      else Some(Read(body[start..end.value], if last then |body| else end.value + 1))
  }

  lemma ReadText(body: string, offset: nat, name: string, value: string, z: string, last: bool)
    requires offset <= |body| && body[offset..] == name + "=" + value + z && IsValue(value)
    requires if last then z == "" else z != "" && z[0] == ';'
    ensures ReadField(body, offset, name, last)
            == Some(Read(value, if last then |body| else offset + |name| + 1 + |value| + 1))
    ensures !last ==> body[offset + |name| + 1 + |value| + 1..] == z[1..]
  {
    var start := offset + |name| + 1;
    ReadParts(body, offset, name, value, z);
    PieceEnd(value, z);
  }

  lemma ReadParts(body: string, offset: nat, name: string, value: string, z: string)
    requires offset <= |body| && body[offset..] == name + "=" + value + z
    ensures var start := offset + |name| + 1;
            && StartsWith(body[offset..], name + "=") && |body| == start + |value| + |z|
            && body[start..] == value + z && body[start..start + |value|] == value && body[start + |value|..] == z
            && (z != "" ==> body[start + |value| + 1..] == z[1..])
  {
    var (start, t) := (offset + |name| + 1, body[offset..]);
    assert t[..|name| + 1] == name + "=";
    assert body[start..] == t[|name| + 1..] && body[start + |value|..] == t[|name| + 1 + |value|..];
    assert body[start..start + |value|] == t[|name| + 1..|name| + 1 + |value|];
    if z != "" { assert body[start + |value| + 1..] == t[|name| + 1 + |value| + 1..]; }
  }

  lemma ReadOne(body: string, offset: nat, fields: seq<Field>)
    requires offset <= |body| && |fields| >= 1 && AreFields(fields) && body[offset..] == Write(fields)
    ensures var (f, last) := (fields[0], |fields| == 1);
            && ReadField(body, offset, f.name, last)
            == Some(Read(f.value, if last then |body| else offset + |Show(f)| + 1))
            && (!last ==> offset + |Show(f)| + 1 <= |body| && body[offset + |Show(f)| + 1..] == Write(fields[1..]))
  {
    var (f, z) := (fields[0], Tail(fields[1..]));
    ReadText(body, offset, f.name, f.value, z, |fields| == 1);
  }

  /** One conditional read: an absent field takes a fixed value instead. */
  datatype Step = Step(name: string, present: bool, last: bool, absent: string)

  function Reads(body: string, offset: nat, steps: seq<Step>): (r: Option<seq<string>>)
    requires offset <= |body|
    ensures r.Some? ==> |r.value| == |steps|
    decreases |steps|
  {
    if steps == [] then if offset == |body| then Some([]) else None
    else
      var s := steps[0];
      var read := if s.present then ReadField(body, offset, s.name, s.last) else Some(Read(s.absent, offset));
      if read.None? then None
      else
        var rest := Reads(body, read.value.next, steps[1..]);
        if rest.None? then None else Some([read.value.value] + rest.value)
  }

  function Prepended(values: seq<string>, rest: Option<seq<string>>): Option<seq<string>> {
    if rest.None? then None else Some(values + rest.value)
  }

  lemma PrependedTwice(values: seq<string>, value: string, rest: Option<seq<string>>)
    ensures Prepended(values + [value], rest)
            == Prepended(values, if rest.None? then None else Some([value] + rest.value))
    ensures Prepended([], rest) == rest
  {
    if rest.Some? { assert values + [value] + rest.value == values + ([value] + rest.value)
        && [] + rest.value == rest.value; }
  }

  /** The reads one after another, stopping at the first that fails. */
  method ReadEach(body: string, steps: seq<Step>) returns (r: Option<seq<string>>)
    ensures r == Reads(body, 0, steps)
  {
    var values: seq<string> := [];
    var offset: nat := 0;
    assert steps[0..] == steps;
    PrependedTwice([], "", Reads(body, 0, steps));
    for i := 0 to |steps|
      invariant offset <= |body|
      invariant Reads(body, 0, steps) == Prepended(values, Reads(body, offset, steps[i..]))
    {
      var s := steps[i];
      assert steps[i..][1..] == steps[i + 1..];
      if s.present {
        var read := ReadField(body, offset, s.name, s.last);
        if read.None? { return None; }
        PrependedTwice(values, read.value.value, Reads(body, read.value.next, steps[i + 1..]));
        values, offset := values + [read.value.value], read.value.next;
      } else {
        PrependedTwice(values, s.absent, Reads(body, offset, steps[i + 1..]));
        values := values + [s.absent];
      }
    }
    assert steps[|steps|..] == [] && values + [] == values;
    return if offset == |body| then Some(values) else None;
  }

  /** The fields that are there to be read. */
  function Shown(steps: seq<Step>, values: seq<string>): seq<Field>
    requires |steps| == |values|
  {
    if steps == [] then []
    else (if steps[0].present then [Field(steps[0].name, values[0])] else []) + Shown(steps[1..], values[1..])
  }

  /** Step `m` reads the last field there is, and is the only one told so. */
  predicate Closed(steps: seq<Step>, m: nat) {
    && m < |steps| && steps[m].present && (forall i :: m < i < |steps| ==> !steps[i].present)
    && forall i :: 0 <= i < |steps| && steps[i].present ==> (steps[i].last <==> i == m)
  }
  predicate Fits(s: Step, value: string) { if s.present then IsName(s.name) && IsValue(value) else value == s.absent }
  predicate AllFit(steps: seq<Step>, values: seq<string>) {
    |steps| == |values| && forall i :: 0 <= i < |steps| ==> Fits(steps[i], values[i])
  }

  lemma {:induction false} ShownFields(steps: seq<Step>, values: seq<string>)
    requires AllFit(steps, values)
    ensures AreFields(Shown(steps, values))
    ensures (exists i :: 0 <= i < |steps| && steps[i].present) ==> Shown(steps, values) != []
  {
    if steps != [] {
      ShownFields(steps[1..], values[1..]);
      if !steps[0].present && exists i :: 0 <= i < |steps| && steps[i].present {
        var i :| 0 <= i < |steps| && steps[i].present;
        assert steps[1..][i - 1].present;
      }
    }
  }

  lemma Associates(a: seq<Field>, b: seq<Field>, c: seq<Field>)
    ensures a + b + c == a + (b + c)
  {
  }

  lemma {:induction false} ShownConcat(a: seq<Step>, av: seq<string>, b: seq<Step>, bv: seq<string>)
    requires |a| == |av| && |b| == |bv|
    ensures Shown(a + b, av + bv) == Shown(a, av) + Shown(b, bv)
    decreases |a|
  {
    if a == [] {
      assert a + b == b && av + bv == bv;
    } else {
      ShownConcat(a[1..], av[1..], b, bv);
      assert (a + b)[1..] == a[1..] + b && (av + bv)[1..] == av[1..] + bv;
      Associates(if a[0].present then [Field(a[0].name, av[0])] else [], Shown(a[1..], av[1..]), Shown(b, bv));
    }
  }

  lemma {:induction false} ShownWhole(steps: seq<Step>, values: seq<string>)
    requires |steps| == |values| && forall i :: 0 <= i < |steps| ==> steps[i].present
    ensures |Shown(steps, values)| == |steps|
    ensures forall i :: 0 <= i < |steps| ==> Shown(steps, values)[i] == Field(steps[i].name, values[i])
  {
    if steps != [] { ShownWhole(steps[1..], values[1..]); }
  }

  lemma {:induction false} ReadsAbsent(body: string, steps: seq<Step>, values: seq<string>)
    requires AllFit(steps, values) && forall i :: 0 <= i < |steps| ==> !steps[i].present
    ensures Reads(body, |body|, steps) == Some(values) && Shown(steps, values) == []
    decreases |steps|
  {
    if steps != [] {
      ReadsAbsent(body, steps[1..], values[1..]);
      assert values == [values[0]] + values[1..];
    }
  }

  lemma ReadsCons(body: string, offset: nat, steps: seq<Step>, read: Read, values: seq<string>)
    requires steps != [] && offset <= |body| && read.next <= |body|
    requires if steps[0].present then ReadField(body, offset, steps[0].name, steps[0].last) == Some(read)
             else read == Read(steps[0].absent, offset)
    requires values != [] && values[0] == read.value && Reads(body, read.next, steps[1..]) == Some(values[1..])
    ensures Reads(body, offset, steps) == Some(values)
  {
    assert values == [values[0]] + values[1..];
  }

  lemma ShownCons(steps: seq<Step>, values: seq<string>)
    requires AllFit(steps, values) && steps != []
    ensures AllFit(steps[1..], values[1..]) && AreFields(Shown(steps, values))
            && AreFields(Shown(steps[1..], values[1..]))
    ensures if steps[0].present
            then Shown(steps, values) != [] && Shown(steps, values)[0] == Field(steps[0].name, values[0])
                 && Shown(steps, values)[1..] == Shown(steps[1..], values[1..])
            else Shown(steps, values) == Shown(steps[1..], values[1..])
  {
    ShownFields(steps, values);
    ShownFields(steps[1..], values[1..]);
  }

  lemma ClosedRest(steps: seq<Step>, values: seq<string>, m: nat)
    requires Closed(steps, m) && m >= 1 && AllFit(steps, values)
    ensures Closed(steps[1..], m - 1) && Shown(steps[1..], values[1..]) != []
  {
    assert steps[1..][m - 1].present;
    ShownFields(steps[1..], values[1..]);
  }

  lemma ReadShown(body: string, offset: nat, steps: seq<Step>, values: seq<string>, m: nat, next: nat)
    requires offset <= |body| && AllFit(steps, values) && Closed(steps, m) && steps[0].present
    requires Shown(steps, values) != [] && body[offset..] == Write(Shown(steps, values))
    requires next == if m == 0 then |body| else offset + |steps[0].name| + |values[0]| + 2
    ensures ReadField(body, offset, steps[0].name, steps[0].last) == Some(Read(values[0], next)) && next <= |body|
    ensures m > 0 ==> body[next..] == Write(Shown(steps[1..], values[1..]))
  {
    ShownCons(steps, values);
    ReadOne(body, offset, Shown(steps, values));
    if m == 0 { ReadsAbsent(body, steps[1..], values[1..]); } else { ClosedRest(steps, values, m); }
  }

  /** Reading field after field gives back every value and ends at the end of the text. */
  lemma {:induction false} ReadsAll(body: string, offset: nat, steps: seq<Step>, values: seq<string>, m: nat)
    requires offset <= |body| && AllFit(steps, values) && Closed(steps, m) && Shown(steps, values) != []
    requires body[offset..] == Write(Shown(steps, values))
    ensures Reads(body, offset, steps) == Some(values)
    decreases |steps|
  {
    ShownCons(steps, values);
    var next := if !steps[0].present then offset
        else if m == 0 then |body| else offset + |steps[0].name| + |values[0]| + 2;
    if steps[0].present { ReadShown(body, offset, steps, values, m, next); }
    if m == 0 {
      ReadsAbsent(body, steps[1..], values[1..]);
    } else {
      ClosedRest(steps, values, m);
      ReadsAll(body, next, steps[1..], values[1..], m - 1);
    }
    ReadsCons(body, offset, steps, Read(values[0], next), values);
  }

  // ----- replacing a pair of flags ----------------------------------------------------------

  function ReplaceFirst(text: string, found: string, instead: string): string {
    var i := First(text, found);
    if i.None? then text else text[..i.value] + instead + text[i.value + |found|..]
  }

  /** A needle that extends one found in a single place is found there or nowhere. */
  lemma ExtendedFirst(t: string, n: string, more: string, p: nat)
    requires forall k: int :: At(t, n, k) <==> k == p
    ensures First(t, n + more) == if At(t, more, p + |n|) then Some(p) else None
  {
    forall k: int ensures At(t, n + more, k) <==> At(t, n, k) && At(t, more, k + |n|) { AtBoth(t, n, more, k); }
    FirstIs(t, n + more);
    if At(t, more, p + |n|) { FirstAt(t, n + more, p); }
  }

  lemma AtBoth(t: string, n: string, more: string, k: int)
    ensures At(t, n + more, k) <==> At(t, n, k) && At(t, more, k + |n|)
  {
    if 0 <= k && k + |n| + |more| <= |t| {
      var (u, v) := (t[k..k + |n|], t[k + |n|..k + |n| + |more|]);
      assert t[k..k + |n + more|] == u + v;
      assert (u + v)[..|n|] == u && (u + v)[|n|..] == v && (n + more)[..|n|] == n && (n + more)[|n|..] == more;
    }
  }

  lemma MaskText(t: string, x: string, n: string, u: string, z: string, raised: string, clear: string)
    requires t == x + (n + u + z) && forall k: int :: At(t, n, k) <==> k == |x|
    requires u == raised || (u == clear && |raised| == |clear| >= 1 && raised[0] != clear[0])
    ensures ReplaceFirst(t, n + raised, n + clear) == x + (n + clear) + z
  {
    ExtendedFirst(t, n, raised, |x|);
    if u != raised {
      var p := |x| + |n|;
      assert t[p..p + |u|] == u;
      assert !At(t, raised, p);
      Regroup(x, n + u, z, "");
    }
  }

  /** The text of two neighbouring flags that agree. */
  function Pair(first: string, second: string, value: string): string {
    Needle(first) + (value + Needle(second) + value)
  }

  lemma PairTail(s: string, a: seq<Field>, first: string, second: string, value: string, b: seq<Field>)
    ensures s + Tail(a + ([Field(first, value), Field(second, value)] + b)) == (s + Tail(a))
            + (Pair(first, second, value) + Tail(b))
  {
    var (f, g) := (Field(first, value), Field(second, value));
    Grouped(s, a, [f, g] + b);
    assert [f, g] + b == [f] + ([g] + b);
    TailCons(f, [g] + b);
    TailCons(g, b);
    PairText(first, second, value, Tail(b));
  }

  lemma PairText(first: string, second: string, value: string, z: string)
    ensures ";" + (first + "=" + value + (";" + (second + "=" + value + z))) == Pair(first, second, value) + z
  {
    var l := ";" + (first + "=" + value + (";" + (second + "=" + value + z)));
    assert l == ";" + first + "=" + (value + (";" + second + "=" + value)) + z;
  }

  /** Two agreeing flags are cleared in place, and cleared ones stay. */
  lemma MaskAt(s: string, a: seq<Field>, first: string, second: string, on: bool, b: seq<Field>)
    requires Without(s, ';') && AreFields(a) && AreFields(b) && IsName(first) && IsName(second) && first != second
    requires NoName(a, first) && NoName(b, first)
    ensures var v := if on then "1" else "0";
            ReplaceFirst(s + Tail(a + ([Field(first, v), Field(second, v)] + b)), Pair(first, second, "1"),
                Pair(first, second, "0"))
            == s + Tail(a + ([Field(first, "0"), Field(second, "0")] + b))
  {
    var v := if on then "1" else "0";
    var fields := [Field(first, v), Field(second, v)] + b;
    OnlyField(s, a, fields);
    PairTail(s, a, first, second, v, b);
    PairTail(s, a, first, second, "0", b);
    MaskText(s + Tail(a + fields), s + Tail(a), Needle(first), v + Needle(second) + v, Tail(b),
             "1" + Needle(second) + "1", "0" + Needle(second) + "0");
    Regroup(s + Tail(a), Pair(first, second, "0"), Tail(b), "");
  }

  /** Two flags that agree at `i`, with no other field of the first one's name behind the head. */
  predicate PairHere(fields: seq<Field>, i: nat, first: string, second: string, on: bool) {
    && AreFields(fields) && 1 <= i && i + 1 < |fields| && first != second
    && NoName(fields[1..i], first) && NoName(fields[i + 2..], first)
    && var v := if on then "1" else "0"; fields[i] == Field(first, v) && fields[i + 1] == Field(second, v)
  }

  lemma MaskNth(fields: seq<Field>, cleared: seq<Field>, i: nat, first: string, second: string, on: bool)
    requires PairHere(fields, i, first, second, on)
    requires cleared == fields[i := Field(first, "0")][i + 1 := Field(second, "0")]
    ensures ReplaceFirst(Write(fields), Pair(first, second, "1"), Pair(first, second, "0")) == Write(cleared)
  {
    var (a, b) := (fields[1..i], fields[i + 2..]);
    ShowPlain(fields[0]);
    assert fields[1..] == a + ([fields[i], fields[i + 1]] + b);
    MaskAt(Show(fields[0]), a, first, second, on, b);
    assert cleared[1..] == a + ([Field(first, "0"), Field(second, "0")] + b);
  }

  lemma Append(fields: seq<Field>, f: Field)
    requires |fields| >= 1
    ensures Write(fields) + (Needle(f.name) + f.value) == Write(fields + [f])
  {
    assert (fields + [f])[1..] == fields[1..] + [f];
    Grouped(Show(fields[0]), fields[1..], [f]);
    TailCons(f, []);
    assert [f] + [] == [f];
  }

  // ----- the head and the size ------------------------------------------------------------

  /** A text begins with a whole field and its separator exactly when that is its first field. */
  lemma HeadIs(f: Field, rest: string, value: string)
    requires IsField(f) && Without(value, ';')
    ensures StartsWith(Show(f) + ";" + rest, f.name + "=" + value + ";") <==> f.value == value
  {
    SamePiece(Show(f), rest, f.name + "=" + value, ';');
    assert Show(f)[|f.name| + 1..] == f.value && (f.name + "=" + value)[|f.name| + 1..] == value;
  }

  lemma {:induction false} TailSize(fields: seq<Field>)
    requires forall i :: 0 <= i < |fields| ==> |fields[i].name| <= 36 && |fields[i].value| <= 64
    ensures |Tail(fields)| <= 102 * |fields|
  {
    if fields != [] { TailSize(fields[1..]); }
  }

  /** Short fields but for one. */
  lemma WriteSize(fields: seq<Field>, i: nat)
    requires 1 <= i < |fields| && forall j :: 0 <= j < |fields| ==>
             |fields[j].name| <= 36 && (j != i ==> |fields[j].value| <= 64)
    ensures |Write(fields)| <= 102 * |fields| + |fields[i].value|
  {
    var (a, b) := (fields[1..i], fields[i + 1..]);
    assert fields[1..] == a + ([fields[i]] + b);
    TailConcat(a, [fields[i]] + b);
    TailCons(fields[i], b);
    TailSize(a);
    TailSize(b);
  }
}
