/** UTF-8 as RFC 3629 section 4 defines it, beside the two tests of Go's
    unicode/utf8 package that the log fragmenter relies on. */
module Utf8 {
  import opened Sequences

  type byte = b: int | 0 <= b < 256

  // ---------------------------------------------------------------- RFC 3629

  predicate Tail(b: byte) {
    0x80 <= b <= 0xBF
  }

  /** UTF8-char: exactly one encoded code point. */
  predicate IsChar(s: seq<byte>) {
    || (|s| == 1 && s[0] <= 0x7F)
    || (|s| == 2 && 0xC2 <= s[0] <= 0xDF && Tail(s[1]))
    || (|s| == 3 && Tail(s[2]) &&
        (|| (s[0] == 0xE0 && 0xA0 <= s[1] <= 0xBF)
         || (0xE1 <= s[0] <= 0xEC && Tail(s[1]))
         || (s[0] == 0xED && 0x80 <= s[1] <= 0x9F)
         || (0xEE <= s[0] <= 0xEF && Tail(s[1]))))
    || (|s| == 4 && Tail(s[2]) && Tail(s[3]) &&
        (|| (s[0] == 0xF0 && 0x90 <= s[1] <= 0xBF)
         || (0xF1 <= s[0] <= 0xF3 && Tail(s[1]))
         || (s[0] == 0xF4 && 0x80 <= s[1] <= 0x8F)))
  }

  /** The only length an encoding that opens with this byte can have. */
  function CharSize(lead: byte): (n: nat)
    ensures 1 <= n <= 4
  {
    if lead <= 0x7F then 1 else if lead <= 0xDF then 2 else if lead <= 0xEF then 3 else 4
  }

  lemma CharSizeIsForced(c: seq<byte>)
    requires IsChar(c)
    ensures |c| == CharSize(c[0])
  {
  }

  /** UTF8-octets: a concatenation of encoded code points. */
  predicate Valid(s: seq<byte>)
    decreases |s|
  {
    s == [] ||
    (var n := CharSize(s[0]);
     n <= |s| && IsChar(s[..n]) && Valid(s[n..]))
  }

  // -------------------------------------------------------- Go's unicode/utf8

  /** utf8.RuneStart: the top two bits are not 10. */
  predicate RuneStart(b: byte) {
    b / 64 != 2
  }

  /** The size that utf8's `first` table gives a lead byte: 0 for ASCII, 1 for
      a byte that starts no encoding. */
  function LeadSize(b: byte): nat {
    if b <= 0x7F then 0
    else if b <= 0xC1 then 1
    else if b <= 0xDF then 2
    else if b <= 0xEF then 3
    else if b <= 0xF4 then 4
    else 1
  }

  /** The range that utf8's `acceptRanges` table allows the second byte. */
  predicate Accepts(lead: byte, second: byte) {
    if lead == 0xE0 then 0xA0 <= second <= 0xBF
    else if lead == 0xED then 0x80 <= second <= 0x9F
    else if lead == 0xF0 then 0x90 <= second <= 0xBF
    else if lead == 0xF4 then 0x80 <= second <= 0x8F
    else 0x80 <= second <= 0xBF
  }

  /** utf8.FullRune. */
  predicate FullRune(p: seq<byte>) {
    if |p| == 0 then false
    else if |p| >= LeadSize(p[0]) then true
    else if |p| > 1 && !Accepts(p[0], p[1]) then true
    else if |p| > 2 && !Tail(p[2]) then true
    else false
  }

  /** FullRune answers false exactly for what more bytes could still complete
      to one encoded code point. */
  lemma FullRuneMeaning(p: seq<byte>)
    ensures !FullRune(p) <==> exists c :: IsChar(c) && p < c
  {
    if !FullRune(p) {
      var c := Completion(p);
      assert IsChar(c) && p < c;
    }
    if c :| IsChar(c) && p < c {
      assert p == c[..|p|];
    }
  }

  /** One way to finish an encoding that FullRune calls incomplete. */
  function Completion(p: seq<byte>): (c: seq<byte>)
    requires !FullRune(p)
    ensures IsChar(c) && p < c
  {
    if |p| == 0 then [0]
    else
      var second: byte := if p[0] == 0xED || p[0] == 0xF4 then 0x80
                          else if p[0] == 0xE0 then 0xA0
                          else if p[0] == 0xF0 then 0x90 else 0x80;
      var q := if |p| == 1 then p + [second] else p;
      var r := if |q| < LeadSize(p[0]) then q + [0x80] else q;
      if |r| < LeadSize(p[0]) then r + [0x80] else r
  }

  // ------------------------------------------------------ Properties of Valid

  /** Only the first byte of an encoded code point starts a rune. */
  lemma CharStartsOnce(c: seq<byte>)
    requires IsChar(c)
    ensures RuneStart(c[0]) && forall i | 1 <= i < |c| :: !RuneStart(c[i])
  {
  }

  /** Valid, nonempty text is one encoded code point and more valid text. */
  lemma FirstChar(s: seq<byte>) returns (c: seq<byte>, rest: seq<byte>)
    requires Valid(s) && s != []
    ensures s == c + rest && IsChar(c) && Valid(rest)
    ensures RuneStart(s[0])
  {
    var n := CharSize(s[0]);
    c, rest := s[..n], s[n..];
    CharStartsOnce(c);
  }

  lemma PrependChar(c: seq<byte>, s: seq<byte>)
    requires IsChar(c) && Valid(s)
    ensures Valid(c + s)
  {
  }

  lemma CharIsValid(c: seq<byte>)
    requires IsChar(c)
    ensures Valid(c)
  {
  }

  lemma {:induction false} ValidConcat(x: seq<byte>, y: seq<byte>)
    requires Valid(x) && Valid(y)
    ensures Valid(x + y)
    decreases |x|
  {
    if x == [] {
      EmptyIsUnit(y);
    } else {
      var c, rest := FirstChar(x);
      ValidConcat(rest, y);
      PrependChar(c, rest + y);
      ConcatAssoc(c, rest, y);
    }
  }

  /** The part of x + y after a first code point that ends inside x. */
  lemma CharInside(x: seq<byte>, y: seq<byte>, c: seq<byte>, rest: seq<byte>)
    requires x + y == c + rest && |c| <= |x|
    ensures x == c + x[|c|..] && rest == x[|c|..] + y
  {
    CutInFirst(x, y, |c|);
    CutInFirst(c, rest, |c|);
    SplitJoins(x, |c|);
  }

  /** UTF-8 is self-synchronising: valid text may be cut before any byte that
      starts a rune. */
  lemma {:induction false} CutAtRuneStart(x: seq<byte>, y: seq<byte>)
    requires Valid(x + y)
    requires y != [] && RuneStart(y[0])
    ensures Valid(x) && Valid(y)
    decreases |x|
  {
    if x == [] {
      EmptyIsUnit(y);
    } else {
      var c, rest := FirstChar(x + y);
      CharStartsOnce(c);
      assert (x + y)[|x|] == y[0];
      CharInside(x, y, c, rest);
      CutAtRuneStart(x[|c|..], y);
      PrependChar(c, x[|c|..]);
    }
  }

  /** In valid text, a stretch that opens a rune, holds no other rune start and
      satisfies FullRune is exactly one encoded code point. */
  lemma FullTailIsChar(tail: seq<byte>, rest: seq<byte>)
    requires tail != [] && Valid(tail + rest)
    requires forall i | 1 <= i < |tail| :: !RuneStart(tail[i])
    requires FullRune(tail)
    ensures IsChar(tail) && Valid(rest)
  {
    var s := tail + rest;
    var c, more := FirstChar(s);
    if more != [] {
      var _, _ := FirstChar(more);
      assert s[|c|] == more[0];
    }
    FullRuneMeaning(tail);
    assert tail <= c;
    CutInFirst(c, more, |c|);
    CutInFirst(tail, rest, |tail|);
  }
}
