/** Strings as the source handles them: trim, toLowerCase, split, join, indexOf and decimal numbers. */
module JsText {
  // ---- trim and case -------------------------------------------------------

  /** White space and line terminators removed by String.prototype.trim. */
  predicate IsSpace(c: char) {
    || '\t' <= c <= '\r' || c == ' ' || c == '\U{00A0}' || c == '\U{1680}'
    || '\U{2000}' <= c <= '\U{200A}' || c == '\U{2028}' || c == '\U{2029}'
    || c == '\U{202F}' || c == '\U{205F}' || c == '\U{3000}' || c == '\U{FEFF}'
  }

  /** These are the code points of white space and line ends in ECMAScript. */
  lemma SpaceCodes(c: char)
    ensures IsSpace(c) <==>
              var n := c as int;
              9 <= n <= 13 || n == 32 || n == 160 || n == 5_760 || 8_192 <= n <= 8_202 || n == 8_232 || n == 8_233
              || n == 8_239 || n == 8_287 || n == 12_288 || n == 65_279
  {}

  function TrimStart(s: string): string {
    if s != "" && IsSpace(s[0]) then TrimStart(s[1..]) else s
  }

  function TrimEnd(s: string): string {
    if s != "" && IsSpace(s[|s| - 1]) then TrimEnd(s[..|s| - 1]) else s
  }

  function Trim(s: string): string { TrimEnd(TrimStart(s)) }

  /** Lower-casing of the letters that matter here; no other character lower-cases to one of `0-9a-fx`. */
  function LowerChar(c: char): char {
    if 'A' <= c <= 'Z' then (c as int + 32) as char else c
  }

  function Lower(s: string): (r: string) {
    seq(|s|, i requires 0 <= i < |s| => LowerChar(s[i]))
  }

  /** `raw.trim().toLowerCase()` */
  function Normalize(s: string): string { Lower(Trim(s)) }

  lemma {:induction false} TrimmedEnds(s: string)
    ensures var t := TrimEnd(s);
            && (t != "" ==> !IsSpace(t[|t| - 1]))
            && (s != "" && !IsSpace(s[0]) ==> t != "" && t[0] == s[0])
  {
    if s != "" && IsSpace(s[|s| - 1]) { TrimmedEnds(s[..|s| - 1]); }
  }

  lemma {:induction false} TrimmedStart(s: string)
    ensures var t := TrimStart(s); t != "" ==> !IsSpace(t[0])
  {
    if s != "" && IsSpace(s[0]) { TrimmedStart(s[1..]); }
  }

  lemma NormalizeTwice(s: string)
    ensures Normalize(Normalize(s)) == Normalize(s)
  {
    TrimmedStart(s);
    TrimmedEnds(TrimStart(s));
    var t := Normalize(s);
    assert forall c :: IsSpace(LowerChar(c)) ==> IsSpace(c);
    assert Lower(t) == t;
  }

  /** `/^0x[a-f0-9]{64}$/` */
  predicate IsHexId(s: string) {
    && |s| == 66 && s[0] == '0' && s[1] == 'x'
    && forall i :: 2 <= i < 66 ==> ('0' <= s[i] <= '9' || 'a' <= s[i] <= 'f')
  }

  lemma HexIdIsPlain(s: string)
    requires IsHexId(s)
    ensures '\n' !in s
    ensures Normalize(s) == s
  {
    assert forall i :: 0 <= i < |s| ==> !IsSpace(s[i]) && LowerChar(s[i]) == s[i];
  }

  /** Trimming takes white space off both ends and nothing else. */
  lemma TrimTakesEnds(s: string) returns (front: string, back: string)
    ensures s == front + Trim(s) + back
    ensures (forall c :: c in front + back ==> IsSpace(c))
    ensures Trim(s) != "" ==> !IsSpace(Trim(s)[0]) && !IsSpace(Trim(s)[|Trim(s)| - 1])
  {
    front := StartIsSpace(s);
    back := EndIsSpace(TrimStart(s));
    TrimmedStart(s);
    TrimmedEnds(TrimStart(s));
  }

  lemma {:induction false} StartIsSpace(s: string) returns (front: string)
    ensures s == front + TrimStart(s) && forall c :: c in front ==> IsSpace(c)
  {
    front := "";
    if s != "" && IsSpace(s[0]) {
      var rest := StartIsSpace(s[1..]);
      front := [s[0]] + rest;
    }
  }

  lemma {:induction false} EndIsSpace(s: string) returns (back: string)
    ensures s == TrimEnd(s) + back && forall c :: c in back ==> IsSpace(c)
  {
    back := "";
    if s != "" && IsSpace(s[|s| - 1]) {
      var rest := EndIsSpace(s[..|s| - 1]);
      back := rest + [s[|s| - 1]];
    }
  }

  /** Ids are compared without the case and the white space around them. */
  lemma NormalizeSample()
    ensures Normalize(" 0xAbF9Z\n") == "0xabf9z"
  {
    var s := " 0xAbF9Z\n";
    assert s[1..] == "0xAbF9Z\n" && TrimStart(s) == s[1..];
    assert s[1..][..7] == "0xAbF9Z" && TrimEnd("0xAbF9Z\n") == "0xAbF9Z";
  }

  /** An object id is 0x and 64 hexadecimal digits in lower case. */
  lemma HexIdExactly(s: string)
    ensures IsHexId(s) <==> |s| == 66 && s[..2] == "0x" && forall c :: c in s[2..] ==> c in "0123456789abcdef"
  {
    if |s| == 66 {
      assert s[..2] == [s[0], s[1]] == "0x" <==> s[0] == '0' && s[1] == 'x';
      forall i | 2 <= i < 66
        ensures s[i] in "0123456789abcdef" <==> '0' <= s[i] <= '9' || 'a' <= s[i] <= 'f'
      {
        HexDigits(s[i]);
      }
      assert forall i :: 2 <= i < 66 ==> s[2..][i - 2] == s[i];
      if forall c :: c in s[2..] ==> c in "0123456789abcdef" {
        forall i | 2 <= i < 66 ensures s[i] in "0123456789abcdef" { assert s[2..][i - 2] in s[2..]; }
      }
    }
  }

  lemma HexDigits(c: char)
    ensures c in "0123456789abcdef" <==> '0' <= c <= '9' || 'a' <= c <= 'f'
  {
    var digits := "0123456789abcdef";
    assert forall i :: 0 <= i < 10 ==> digits[i] as int == '0' as int + i;
    assert forall i :: 10 <= i < 16 ==> digits[i] as int == 'a' as int + i - 10;
    if '0' <= c <= '9' { assert digits[c as int - '0' as int] == c; }
    if 'a' <= c <= 'f' { assert digits[10 + c as int - 'a' as int] == c; }
  }

  // ---- split, join, indexOf ------------------------------------------------

  /** `text.split(sep)` for a one-character separator. */
  function Split(text: string, sep: char): (parts: seq<string>)
    ensures |parts| > 0
  {
    if text == "" then [""]
    else
      var rest := Split(text[1..], sep);
      if text[0] == sep then [""] + rest else [[text[0]] + rest[0]] + rest[1..]
  }

  /** `parts.join(sep)` */
  function Join(parts: seq<string>, sep: char): string {
    if |parts| == 0 then ""
    else if |parts| == 1 then parts[0]
    else parts[0] + [sep] + Join(parts[1..], sep)
  }

  lemma {:induction false} SplitLine(line: string, text: string, sep: char)
    requires sep !in line
    ensures Split(line, sep) == [line]
    ensures Split(line + [sep] + text, sep) == [line] + Split(text, sep)
  {
    if line == "" {
      assert line + [sep] + text == [sep] + text;
      assert ([sep] + text)[1..] == text;
    } else {
      SplitLine(line[1..], text, sep);
      var whole := line + [sep] + text;
      assert whole[1..] == line[1..] + [sep] + text;
      assert [line[0]] + line[1..] == line;
    }
  }

  /** Splitting undoes joining, for lines that do not hold the separator. */
  lemma {:induction false} SplitJoin(parts: seq<string>, sep: char)
    requires |parts| > 0
    requires forall p | p in parts :: sep !in p
    ensures Split(Join(parts, sep), sep) == parts
  {
    if |parts| == 1 {
      SplitLine(parts[0], "", sep);
    } else {
      SplitJoin(parts[1..], sep);
      SplitLine(parts[0], Join(parts[1..], sep), sep);
    }
  }

  /** Splitting loses nothing and leaves no separator: it is undone by joining. */
  lemma {:induction false} JoinSplit(text: string, sep: char)
    ensures Join(Split(text, sep), sep) == text
    ensures forall p :: p in Split(text, sep) ==> sep !in p
  {
    if text != "" {
      JoinSplit(text[1..], sep);
      var rest := Split(text[1..], sep);
      assert text == [text[0]] + text[1..];
      if text[0] == sep {
        assert Split(text, sep)[1..] == rest;
      } else {
        assert Split(text, sep)[1..] == rest[1..];
      }
    }
  }

  /** `line.indexOf(c)`; the length stands for "not found". */
  function IndexOf(line: string, c: char): (i: nat)
    ensures i <= |line|
    ensures forall j :: 0 <= j < i ==> line[j] != c
    ensures i < |line| ==> line[i] == c
  {
    if line == "" || line[0] == c then 0 else 1 + IndexOf(line[1..], c)
  }

  // ---- decimal numbers -----------------------------------------------------

  predicate IsDigit(c: char) { '0' <= c <= '9' }

  /** `/^\d+$/` */
  predicate IsDecimal(s: string) {
    s != "" && forall i :: 0 <= i < |s| ==> IsDigit(s[i])
  }

  function DigitChar(d: nat): char
    requires d < 10
  {
    ('0' as int + d) as char
  }

  /** `n.toString()` */
  function PrintNat(n: nat): (s: string)
    ensures IsDecimal(s) && '\n' !in s
  {
    if n < 10 then [DigitChar(n)] else PrintNat(n / 10) + [DigitChar(n % 10)]
  }

  /** `BigInt(s)` */
  function ParseNat(s: string): nat
    requires IsDecimal(s)
  {
    var d := s[|s| - 1] as int - '0' as int;
    if |s| == 1 then d else 10 * ParseNat(s[..|s| - 1]) + d
  }

  lemma {:induction false} ParsePrint(n: nat)
    ensures ParseNat(PrintNat(n)) == n
  {
    if n >= 10 {
      ParsePrint(n / 10);
      var s := PrintNat(n);
      assert s[..|s| - 1] == PrintNat(n / 10);
    }
  }

  /** Decimals as they are written: most significant digit first, no leading zero. */
  lemma DecimalsAsWritten()
    ensures PrintNat(0) == "0" && PrintNat(7) == "7" && PrintNat(1_702_050) == "1702050"
    ensures ParseNat("1702050") == 1_702_050 && ParseNat("007") == 7
  {
    assert PrintNat(17) == "17" && PrintNat(170) == "170" && PrintNat(1_702) == "1702";
    assert PrintNat(17_020) == "17020" && PrintNat(170_205) == "170205";
    ParsePrint(1_702_050);
    assert "007"[..2] == "00" && "00"[..1] == "0";
    assert ParseNat("0") == 0 && ParseNat("00") == 0;
  }

  /** No number is printed with a leading zero. */
  lemma {:induction false} NoLeadingZero(n: nat)
    ensures PrintNat(n)[0] == '0' <==> n == 0
  {
    if n >= 10 { NoLeadingZero(n / 10); }
  }
}
