/**
 * The two textual renderings the client gives to raw byte arrays
 * (GXDLMSClient.ChangeType): logical names as dot-separated unsigned
 * decimals, and untyped values as upper-case hexadecimal pairs separated by
 * blanks. Each rendering is proved to be undone by a parser, so no
 * information is lost.
 */
module TextRender {
  import opened DlmsTypes

  /** Separator-joined text of `parts`: "" for no part. */
  function Join(parts: seq<string>, sep: char): string
  {
    if |parts| == 0 then ""
    else if |parts| == 1 then parts[0]
    else parts[0] + [sep] + Join(parts[1..], sep)
  }

  /** Splits `s` at every `sep`: always at least one (possibly empty) piece. */
  function Split(s: string, sep: char): (r: seq<string>)
    ensures |r| >= 1
  {
    if s == [] then [[]]
    else
      var rest := Split(s[1..], sep);
      if s[0] == sep then [[]] + rest
      else [[s[0]] + rest[0]] + rest[1..]
  }

  /** Every character of `c` replaced by `d` (String.Replace(char, char)). */
  function Replace(s: string, c: char, d: char): (r: string)
    ensures |r| == |s|
    ensures forall k :: 0 <= k < |s| ==> r[k] == (if s[k] == c then d else s[k])
  {
    seq(|s|, k requires 0 <= k < |s| => if s[k] == c then d else s[k])
  }

  predicate NoSep(parts: seq<string>, sep: char)
  {
    forall i :: 0 <= i < |parts| ==> sep !in parts[i]
  }

  lemma {:induction false} SplitNoSep(p: string, sep: char)
    requires sep !in p
    ensures Split(p, sep) == [p]
    decreases |p|
  {
    if p != [] {
      SplitNoSep(p[1..], sep);
      assert [p[0]] + p[1..] == p;
    }
  }

  lemma {:induction false} SplitPrefix(p: string, rest: string, sep: char)
    requires sep !in p
    ensures Split(p + [sep] + rest, sep) == [p] + Split(rest, sep)
    decreases |p|
  {
    if p == [] {
      assert p + [sep] + rest == [sep] + rest;
      assert ([sep] + rest)[1..] == rest;
    } else {
      SplitPrefix(p[1..], rest, sep);
      assert (p + [sep] + rest)[1..] == p[1..] + [sep] + rest;
      assert [p[0]] + p[1..] == p;
    }
  }

  /** Splitting at the separator undoes joining with it, when no part contains it. */
  lemma {:induction false} SplitJoin(parts: seq<string>, sep: char)
    requires |parts| >= 1 && NoSep(parts, sep)
    ensures Split(Join(parts, sep), sep) == parts
    decreases |parts|
  {
    if |parts| == 1 {
      SplitNoSep(parts[0], sep);
    } else {
      SplitJoin(parts[1..], sep);
      SplitPrefix(parts[0], Join(parts[1..], sep), sep);
      assert [parts[0]] + parts[1..] == parts;
    }
  }

  /** Replacing the separator of a join by another character gives the join with the other separator. */
  lemma {:induction false} ReplaceJoin(parts: seq<string>, c: char, d: char)
    requires NoSep(parts, c)
    ensures Replace(Join(parts, c), c, d) == Join(parts, d)
    decreases |parts|
  {
    if |parts| == 1 {
      assert Replace(parts[0], c, d) == parts[0];
    } else if |parts| > 1 {
      ReplaceJoin(parts[1..], c, d);
      var a, b := parts[0], Join(parts[1..], c);
      assert Replace(a + [c] + b, c, d) == Replace(a, c, d) + [d] + Replace(b, c, d);
      assert Replace(a, c, d) == a;
    }
  }

  /** The characters of `s` after each `sep`-prefixed part: "" + sep + p1 + sep + p2 ... */
  function SepPrefixed(parts: seq<string>, sep: char): string
  {
    if parts == [] then "" else [sep] + parts[0] + SepPrefixed(parts[1..], sep)
  }

  lemma {:induction false} JoinAsHeadAndTail(parts: seq<string>, sep: char)
    requires |parts| >= 1
    ensures Join(parts, sep) == parts[0] + SepPrefixed(parts[1..], sep)
    decreases |parts|
  {
    if |parts| > 1 {
      JoinAsHeadAndTail(parts[1..], sep);
      assert parts[1..][1..] == parts[2..];
    }
  }

  lemma {:induction false} JoinEnds(parts: seq<string>, sep: char)
    requires |parts| >= 1 && forall i :: 0 <= i < |parts| ==> |parts[i]| >= 1 && parts[i][0] != sep && parts[i][|parts[i]| - 1] != sep
    ensures var s := Join(parts, sep); |s| >= 1 && s[0] == parts[0][0] && s[|s| - 1] == parts[|parts| - 1][|parts[|parts| - 1]| - 1]
    decreases |parts|
  {
    if |parts| > 1 {
      JoinEnds(parts[1..], sep);
    }
  }

  // ---------------------------------------------------------------------
  // Decimal rendering of logical names.

  /** Unsigned decimal text of each byte (byte.ToString()). */
  function DecimalParts(bs: seq<byte>): (parts: seq<string>)
    ensures |parts| == |bs|
  {
    seq(|bs|, i requires 0 <= i < |bs| => NatToString(bs[i]))
  }

  /**
   * The fold ChangeType runs over an octet string: starting from a null
   * string it appends "." before every byte but the first, then the byte's
   * decimal text (in C#, null + "5" is "5").
   */
  function AppendDecimals(acc: Option<string>, bs: seq<byte>): (r: Option<string>)
    ensures acc.Some? ==> r.Some?
    ensures bs != [] ==> r.Some?
    ensures bs == [] ==> r == acc
    decreases |bs|
  {
    if bs == [] then acc
    else
      var text := (if acc.Some? then acc.value + "." else "") + NatToString(bs[0]);
      AppendDecimals(Some(text), bs[1..])
  }

  /** Dotted-decimal rendering of an octet string: "" for an empty array, else the fold above. */
  function DottedDecimal(bs: seq<byte>): (s: string)
  {
    if bs == [] then "" else AppendDecimals(Nothing, bs).value
  }

  lemma {:induction false} AppendDecimalsTail(a: string, bs: seq<byte>)
    ensures AppendDecimals(Some(a), bs) == Some(a + SepPrefixed(DecimalParts(bs), '.'))
    decreases |bs|
  {
    var parts := DecimalParts(bs);
    if bs == [] {
      assert a + SepPrefixed(parts, '.') == a;
    } else {
      var head := a + "." + NatToString(bs[0]);
      AppendDecimalsTail(head, bs[1..]);
      assert parts[1..] == DecimalParts(bs[1..]);
      assert parts[0] == NatToString(bs[0]);
      assert SepPrefixed(parts, '.') == "." + NatToString(bs[0]) + SepPrefixed(parts[1..], '.');
      assert head + SepPrefixed(parts[1..], '.') == a + SepPrefixed(parts, '.');
    }
  }

  /** The fold equals the '.'-join of the bytes' decimal texts. */
  lemma DottedIsJoin(bs: seq<byte>)
    ensures DottedDecimal(bs) == Join(DecimalParts(bs), '.')
  {
    if bs != [] {
      var head := NatToString(bs[0]);
      assert "" + head == head;
      assert AppendDecimals(Nothing, bs) == AppendDecimals(Some(head), bs[1..]);
      AppendDecimalsTail(head, bs[1..]);
      JoinAsHeadAndTail(DecimalParts(bs), '.');
      assert DecimalParts(bs)[1..] == DecimalParts(bs[1..]);
    }
  }

  /** The rendering is empty exactly for the empty array and never starts or ends with a dot. */
  lemma DottedShape(bs: seq<byte>)
    ensures var s := DottedDecimal(bs);
      && (s == "" <==> bs == [])
      && (s != "" ==> s[0] != '.' && s[|s| - 1] != '.')
  {
    DottedIsJoin(bs);
    if bs != [] {
      var parts := DecimalParts(bs);
      forall i | 0 <= i < |parts|
        ensures |parts[i]| >= 1 && parts[i][0] != '.' && parts[i][|parts[i]| - 1] != '.'
      {
        assert parts[i] == NatToString(bs[i]);
      }
      JoinEnds(parts, '.');
    }
  }

  /** The value of a string of decimal digits (most significant first). */
  function DigitsValue(s: string): nat
  {
    if s == [] then 0
    else if '0' <= s[|s| - 1] <= '9' then DigitsValue(s[..|s| - 1]) * 10 + (s[|s| - 1] as int - '0' as int)
    else DigitsValue(s[..|s| - 1]) * 10
  }

  lemma {:induction false} DigitsOfNat(n: nat)
    ensures DigitsValue(NatToString(n)) == n
    decreases n
  {
    var s := NatToString(n);
    if n >= 10 {
      DigitsOfNat(n / 10);
      assert s[..|s| - 1] == NatToString(n / 10);
    }
  }

  /** Reads one dotted field back: one to three digits whose value is below 256. */
  function ParseDecimalByte(s: string): Option<byte>
  {
    if 1 <= |s| <= 3 && (forall k :: 0 <= k < |s| ==> '0' <= s[k] <= '9') && DigitsValue(s) < 256
    then Some(DigitsValue(s)) else Nothing
  }

  lemma {:induction false} NatToStringShort(n: nat)
    ensures n < 10 ==> |NatToString(n)| == 1
    ensures n < 100 ==> |NatToString(n)| <= 2
    ensures n < 1000 ==> |NatToString(n)| <= 3
    decreases n
  {
    if n >= 10 {
      NatToStringShort(n / 10);
    }
  }

  lemma DecimalByteRoundTrip(b: byte)
    ensures ParseDecimalByte(NatToString(b)) == Some(b)
  {
    DigitsOfNat(b);
    NatToStringShort(b);
  }

  /** Parses each piece with `f`, failing as soon as one piece fails. */
  function ParseEach(pieces: seq<string>, f: string -> Option<byte>): (r: Option<seq<byte>>)
    ensures r.Some? ==> |r.value| == |pieces|
  {
    if pieces == [] then Some([])
    else match (f(pieces[0]), ParseEach(pieces[1..], f))
      case (Some(b), Some(rest)) => Some([b] + rest)
      case _ => Nothing
  }

  /** Reads a dotted-decimal rendering back into bytes. */
  function ParseDottedDecimal(s: string): Option<seq<byte>>
  {
    if s == "" then Some([]) else ParseEach(Split(s, '.'), ParseDecimalByte)
  }

  lemma {:induction false} ParseEachDecimal(bs: seq<byte>)
    ensures ParseEach(DecimalParts(bs), ParseDecimalByte) == Some(bs)
    decreases |bs|
  {
    if bs != [] {
      DecimalByteRoundTrip(bs[0]);
      ParseEachDecimal(bs[1..]);
      assert DecimalParts(bs)[0] == NatToString(bs[0]);
      assert DecimalParts(bs)[1..] == DecimalParts(bs[1..]);
      assert [bs[0]] + bs[1..] == bs;
    }
  }

  /** The logical-name rendering loses nothing: parsing it gives the octets back. */
  lemma DottedDecimalRoundTrip(bs: seq<byte>)
    ensures ParseDottedDecimal(DottedDecimal(bs)) == Some(bs)
  {
    DottedShape(bs);
    if bs != [] {
      DottedIsJoin(bs);
      var parts := DecimalParts(bs);
      forall i | 0 <= i < |parts| ensures '.' !in parts[i] {
        assert parts[i] == NatToString(bs[i]);
      }
      SplitJoin(parts, '.');
      ParseEachDecimal(bs);
    }
  }

  // ---------------------------------------------------------------------
  // Hexadecimal rendering of untyped values.

  function HexDigit(n: int): (c: char)
    requires 0 <= n < 16
    ensures ('0' <= c <= '9') || ('A' <= c <= 'F')
  {
    if n < 10 then (n + '0' as int) as char else (n - 10 + 'A' as int) as char
  }

  function HexDigitValue(c: char): Option<int>
  {
    if '0' <= c <= '9' then Some(c as int - '0' as int)
    else if 'A' <= c <= 'F' then Some(c as int - 'A' as int + 10)
    else Nothing
  }

  /** Two upper-case hexadecimal digits of a byte, high nibble first. */
  function HexPair(b: byte): (s: string)
    ensures |s| == 2
  {
    [HexDigit(b / 16), HexDigit(b % 16)]
  }

  function HexParts(bs: seq<byte>): (parts: seq<string>)
    ensures |parts| == |bs|
  {
    seq(|bs|, i requires 0 <= i < |bs| => HexPair(bs[i]))
  }

  /** BitConverter.ToString(bytes).Replace('-', ' '): hex pairs joined by '-', then each '-' made a blank. */
  function HexText(bs: seq<byte>): string
  {
    Replace(Join(HexParts(bs), '-'), '-', ' ')
  }

  function ParseHexPair(s: string): Option<byte>
  {
    if |s| == 2 then
      match (HexDigitValue(s[0]), HexDigitValue(s[1]))
      case (Some(h), Some(l)) => if 0 <= h < 16 && 0 <= l < 16 then Some(h * 16 + l) else Nothing
      case _ => Nothing
    else Nothing
  }

  function ParseHexText(s: string): Option<seq<byte>>
  {
    if s == "" then Some([]) else ParseEach(Split(s, ' '), ParseHexPair)
  }

  lemma HexPartsNoSep(bs: seq<byte>, c: char)
    requires c == '-' || c == ' '
    ensures NoSep(HexParts(bs), c)
  {
    var parts := HexParts(bs);
    forall i | 0 <= i < |parts| ensures c !in parts[i] {
      assert parts[i] == HexPair(bs[i]);
    }
  }

  lemma {:induction false} ParseEachHex(bs: seq<byte>)
    ensures ParseEach(HexParts(bs), ParseHexPair) == Some(bs)
    decreases |bs|
  {
    if bs != [] {
      var b := bs[0];
      assert ParseHexPair(HexPair(b)) == Some(b);
      ParseEachHex(bs[1..]);
      assert HexParts(bs)[0] == HexPair(b);
      assert HexParts(bs)[1..] == HexParts(bs[1..]);
      assert [b] + bs[1..] == bs;
    }
  }

  /**
   * The untyped rendering is blank-separated hex pairs, three characters per
   * byte less one, and parsing it gives the bytes back.
   */
  lemma HexTextRoundTrip(bs: seq<byte>)
    ensures HexText(bs) == Join(HexParts(bs), ' ')
    ensures bs != [] ==> |HexText(bs)| == 3 * |bs| - 1
    ensures ParseHexText(HexText(bs)) == Some(bs)
  {
    HexPartsNoSep(bs, '-');
    HexPartsNoSep(bs, ' ');
    ReplaceJoin(HexParts(bs), '-', ' ');
    if bs != [] {
      HexJoinLength(HexParts(bs));
      SplitJoin(HexParts(bs), ' ');
      ParseEachHex(bs);
    }
  }

  lemma {:induction false} HexJoinLength(parts: seq<string>)
    requires |parts| >= 1 && forall i :: 0 <= i < |parts| ==> |parts[i]| == 2
    ensures |Join(parts, ' ')| == 3 * |parts| - 1
    decreases |parts|
  {
    if |parts| > 1 {
      HexJoinLength(parts[1..]);
    }
  }
}
