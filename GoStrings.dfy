/**
 * The pieces of Go's `strings`, `fmt` and string comparison that the bot relies on.
 * A Go string is a byte sequence; here each `char` stands for one byte, so `|s|` is
 * Go's `len(s)` and `s[..n]` is Go's `s[:n]`.
 */
module GoStrings {

  /** `sep` occurs in `s` starting at byte `i`. */
  predicate OccursAt(s: string, sep: string, i: nat)
  {
    i + |sep| <= |s| && s[i..i + |sep|] == sep
  }

  /** The first position at or after `from` where `sep` occurs in `s`, or -1. */
  function IndexFrom(s: string, sep: string, from: nat): (r: int)
    requires |sep| > 0
    ensures r < 0 ==> r == -1 && forall i: nat :: from <= i ==> !OccursAt(s, sep, i)
    ensures r >= 0 ==> from <= r && OccursAt(s, sep, r) && forall i: nat :: from <= i < r ==> !OccursAt(s, sep, i)
    decreases |s| - from
  {
    if from + |sep| > |s| then -1
    else if s[from..from + |sep|] == sep then from
    else IndexFrom(s, sep, from + 1)
  }

  /** `strings.Index(s, sep)`: the first position of `sep` in `s`, or -1. */
  function Index(s: string, sep: string): (r: int)
    requires |sep| > 0
    ensures r < 0 ==> r == -1 && forall i: nat :: !OccursAt(s, sep, i)
    ensures r >= 0 ==> OccursAt(s, sep, r) && forall i: nat :: i < r ==> !OccursAt(s, sep, i)
  {
    IndexFrom(s, sep, 0)
  }

  /** `strings.Split(s, sep)` for a non-empty separator. */
  function Split(s: string, sep: string): (r: seq<string>)
    requires |sep| > 0
    ensures |r| >= 1
    decreases |s|
  {
    var i := Index(s, sep);
    if i < 0 then [s] else [s[..i]] + Split(s[i + |sep|..], sep)
  }

  /** `strings.Join(parts, sep)`. */
  function Join(parts: seq<string>, sep: string): string
  {
    if |parts| == 0 then ""
    else if |parts| == 1 then parts[0]
    else parts[0] + sep + Join(parts[1..], sep)
  }

  /** Rejoining the pieces of a split gives back the original string. */
  lemma {:induction false} JoinSplit(s: string, sep: string)
    requires |sep| > 0
    ensures Join(Split(s, sep), sep) == s
    decreases |s|
  {
    var i := Index(s, sep);
    if i >= 0 {
      var rest := s[i + |sep|..];
      var parts := Split(s, sep);
      assert parts == [s[..i]] + Split(rest, sep);
      assert parts[1..] == Split(rest, sep);
      JoinSplit(rest, sep);
      calc {
        Join(parts, sep);
        parts[0] + sep + Join(parts[1..], sep);
        s[..i] + sep + rest;
        { assert s[i..i + |sep|] == sep; }
        s[..i] + s[i..i + |sep|] + s[i + |sep|..];
        s;
      }
    }
  }

  /** No piece produced by a split contains the separator. */
  lemma {:induction false} SplitPiecesSeparatorFree(s: string, sep: string)
    requires |sep| > 0
    ensures forall k :: 0 <= k < |Split(s, sep)| ==> Index(Split(s, sep)[k], sep) == -1
    decreases |s|
  {
    var i := Index(s, sep);
    if i >= 0 {
      var rest := s[i + |sep|..];
      SplitPiecesSeparatorFree(rest, sep);
      var head := s[..i];
      if Index(head, sep) >= 0 {
        var j := Index(head, sep);
        assert head[j..j + |sep|] == s[j..j + |sep|];
        assert OccursAt(s, sep, j);
      }
      assert Split(s, sep) == [head] + Split(rest, sep);
    }
  }

  /** A split has more than one piece exactly when the separator occurs. */
  lemma SplitMoreThanOne(s: string, sep: string)
    requires |sep| > 0
    ensures |Split(s, sep)| >= 2 <==> Index(s, sep) >= 0
  {
    var i := Index(s, sep);
    if i >= 0 {
      var tail := Split(s[i + |sep|..], sep);
      assert Split(s, sep) == [s[..i]] + tail;
      assert |Split(s, sep)| == 1 + |tail|;
    } else {
      assert Split(s, sep) == [s];
    }
  }

  /** A one-byte separator occurs exactly when that byte is in the string. */
  lemma IndexOfByte(s: string, c: char)
    ensures Index(s, [c]) >= 0 <==> c in s
  {
    if c in s {
      var i :| 0 <= i < |s| && s[i] == c;
      assert s[i..i + 1] == [c];
      assert OccursAt(s, [c], i);
    }
    if Index(s, [c]) >= 0 {
      var i := Index(s, [c]);
      assert s[i..i + 1] == [c];
      assert s[i] == c;
    }
  }

  /** The first occurrence in a prefix is the first occurrence in the whole string. */
  lemma IndexInPrefix(x: string, y: string, sep: string, i: nat)
    requires |sep| > 0
    requires OccursAt(x, sep, i)
    requires forall j: nat :: j < i ==> !OccursAt(x, sep, j)
    ensures Index(x + y, sep) == i
  {
    var s := x + y;
    assert s[..|x|] == x;
    assert OccursAt(s, sep, i) by { assert s[i..i + |sep|] == x[i..i + |sep|]; }
    var r := Index(s, sep);
    assert r >= 0;
    assert r <= i;
    assert !OccursAt(x, sep, r) ==> r >= i by {
      if r < i {
        assert s[r..r + |sep|] == x[r..r + |sep|];
      }
    }
  }

  /** A piece without the separator's first byte ends where the next separator begins. */
  lemma IndexAfterCleanPiece(part: string, sep: string, rest: string)
    requires |sep| > 0 && sep[0] !in part
    ensures Index(part + sep + rest, sep) == |part|
  {
    var x := part + sep;
    forall j: nat | j < |part| ensures !OccursAt(x, sep, j) {
      assert x[j] == part[j];
    }
    assert x[|part|..|part| + |sep|] == sep;
    IndexInPrefix(x, rest, sep, |part|);
  }

  lemma NoIndexInCleanPiece(s: string, sep: string)
    requires |sep| > 0 && sep[0] !in s
    ensures Index(s, sep) == -1
  {
    forall j: nat | j + |sep| <= |s| ensures !OccursAt(s, sep, j) {
      assert s[j..j + |sep|][0] == s[j];
    }
  }

  /**
   * The other round trip: splitting a join gives back the pieces, provided no piece
   * contains the separator's first byte.
   */
  lemma {:induction false} SplitJoin(parts: seq<string>, sep: string)
    requires |sep| > 0 && |parts| >= 1
    requires forall k :: 0 <= k < |parts| ==> sep[0] !in parts[k]
    ensures Split(Join(parts, sep), sep) == parts
    decreases |parts|
  {
    if |parts| == 1 {
      NoIndexInCleanPiece(parts[0], sep);
    } else {
      var p, rest := parts[0], Join(parts[1..], sep);
      var s := p + sep + rest;
      assert Join(parts, sep) == s;
      IndexAfterCleanPiece(p, sep, rest);
      assert s[..|p|] == p;
      assert s[|p| + |sep|..] == rest;
      SplitJoin(parts[1..], sep);
      assert parts == [p] + parts[1..];
    }
  }

  /** Joining two non-empty runs of pieces puts one separator between their joins. */
  lemma {:induction false} JoinAppend(a: seq<string>, b: seq<string>, sep: string)
    requires |a| >= 1 && |b| >= 1
    ensures Join(a + b, sep) == Join(a, sep) + sep + Join(b, sep)
    decreases |a|
  {
    if |a| == 1 {
      assert (a + b)[1..] == b;
    } else {
      assert (a + b)[1..] == a[1..] + b;
      JoinAppend(a[1..], b, sep);
    }
  }

  function Min(a: int, b: int): int { if a < b then a else b }

  // ---- fmt's %d ----

  function DigitChar(d: nat): (c: char)
    requires d < 10
    ensures IsDigit(c) && DigitValue(c) == d
  {
    ('0' as int + d) as char
  }

  predicate IsDigit(c: char) { '0' <= c <= '9' }

  function DigitValue(c: char): nat
    requires IsDigit(c)
  {
    (c as int - '0' as int) as nat
  }

  /** The decimal digits of `n`, most significant first, with no leading zero. */
  function NatToString(n: nat): (r: string)
    ensures |r| >= 1
    ensures forall i :: 0 <= i < |r| ==> IsDigit(r[i])
    ensures r[0] == '0' ==> n == 0
    decreases n
  {
    if n < 10 then [DigitChar(n)] else NatToString(n / 10) + [DigitChar(n % 10)]
  }

  /** Go's `fmt.Sprintf("%d", n)`: a minus sign for negatives, then the digits. */
  function Itoa(n: int): string
  {
    if n < 0 then "-" + NatToString(-n) else NatToString(n)
  }

  /** The value of a string of decimal digits. */
  function ParseNat(s: string): nat
    requires forall i :: 0 <= i < |s| ==> IsDigit(s[i])
    decreases |s|
  {
    if |s| == 0 then 0 else 10 * ParseNat(s[..|s| - 1]) + DigitValue(s[|s| - 1])
  }

  /** The value of an optionally signed decimal numeral. */
  function ParseInt(s: string): int
    requires |s| >= 1
    requires s[0] == '-' || IsDigit(s[0])
    requires forall i :: 1 <= i < |s| ==> IsDigit(s[i])
  {
    if s[0] == '-' then -(ParseNat(s[1..]) as int) else ParseNat(s) as int
  }

  lemma {:induction false} ParseNatToString(n: nat)
    ensures ParseNat(NatToString(n)) == n
    decreases n
  {
    if n >= 10 {
      var s := NatToString(n);
      ParseNatToString(n / 10);
      assert s[..|s| - 1] == NatToString(n / 10);
    }
  }

  /** `%d` writes a minus sign exactly for negative numbers, and "0" exactly for zero. */
  lemma ItoaSign(n: int)
    ensures |Itoa(n)| >= 1
    ensures Itoa(n)[0] == '-' <==> n < 0
    ensures Itoa(n) == "0" <==> n == 0
  {
    var r := Itoa(n);
    if n < 0 {
      assert r == "-" + NatToString(-n);
      assert r[0] == '-';
    } else {
      assert r == NatToString(n);
      assert IsDigit(r[0]);
      if n == 0 { assert r == [DigitChar(0)]; }
    }
  }

  lemma NegativeItoa(n: int)
    requires n < 0
    ensures Itoa(n)[0] == '-' && Itoa(n)[1..] == NatToString(-n)
  {
    assert Itoa(n) == "-" + NatToString(-n);
  }

  /** Decimal formatting loses nothing: the numeral reads back as the number. */
  lemma ItoaRoundTrip(n: int)
    ensures |Itoa(n)| >= 1 && (Itoa(n)[0] == '-' || IsDigit(Itoa(n)[0]))
    ensures ParseInt(Itoa(n)) == n
  {
    var r := Itoa(n);
    if n < 0 {
      var d := NatToString(-n);
      NegativeItoa(n);
      assert forall i :: 1 <= i < |r| ==> IsDigit(r[i]) by {
        forall i | 1 <= i < |r| ensures IsDigit(r[i]) { assert r[i] == r[1..][i - 1]; }
      }
      ParseNatToString(-n);
      assert ParseInt(r) == -(ParseNat(d) as int);
    } else {
      assert r == NatToString(n);
      ParseNatToString(n);
    }
  }

  // ---- Go's `<` on strings ----

  /** Go's `a < b`: bytewise lexicographic order, a proper prefix coming first. */
  predicate Less(a: string, b: string)
    decreases |a|
  {
    if |a| == 0 then |b| > 0
    else if |b| == 0 then false
    else if a[0] != b[0] then a[0] < b[0]
    else Less(a[1..], b[1..])
  }

  lemma {:induction false} LessIrreflexive(a: string)
    ensures !Less(a, a)
    decreases |a|
  {
    if |a| > 0 { LessIrreflexive(a[1..]); }
  }

  lemma {:induction false} LessTransitive(a: string, b: string, c: string)
    requires Less(a, b) && Less(b, c)
    ensures Less(a, c)
    decreases |a|
  {
    if |a| > 0 && a[0] == b[0] && b[0] == c[0] {
      LessTransitive(a[1..], b[1..], c[1..]);
    }
  }

  lemma {:induction false} LessTotal(a: string, b: string)
    requires a != b
    ensures Less(a, b) || Less(b, a)
    decreases |a|
  {
    if |a| > 0 && |b| > 0 && a[0] == b[0] {
      LessTotal(a[1..], b[1..]);
    }
  }

  /** `<` on strings is a strict total order. */
  lemma LessIsStrictTotalOrder()
    ensures forall a :: !Less(a, a)
    ensures forall a, b, c :: Less(a, b) && Less(b, c) ==> Less(a, c)
    ensures forall a, b :: a != b ==> Less(a, b) || Less(b, a)
  {
    forall a ensures !Less(a, a) { LessIrreflexive(a); }
    forall a, b, c | Less(a, b) && Less(b, c) ensures Less(a, c) { LessTransitive(a, b, c); }
    forall a, b | a != b ensures Less(a, b) || Less(b, a) { LessTotal(a, b); }
  }
}
