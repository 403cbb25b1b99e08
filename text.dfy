/** The optional value that stands for JavaScript's `null`. */
module Wrappers {
  datatype Option<+T> = None | Some(value: T) {
    function GetOr(default: T): T {
      match this
      case Some(v) => v
      case None => default
    }
  }
}

/**
 * The string operations the dashboard's components use: prefix and substring
 * tests, `trim`, `split('\n')`, the digit filter `replace(/\D/g, '')`, decimal
 * parsing of a digit string (`Number`) and decimal printing of a number.
 */
module Text {

  /** `s.startsWith(p)` */
  predicate StartsWith(s: string, p: string) {
    |p| <= |s| && s[..|p|] == p
  }

  lemma StartsWithAt(s: string, p: string, k: nat)
    requires StartsWith(s, p) && k < |p|
    ensures k < |s| && s[k] == p[k]
  {
    assert s[..|p|][k] == s[k];
  }

  /** `s.includes(p)`, searching from the front. */
  predicate Contains(s: string, p: string)
    decreases |s|
  {
    StartsWith(s, p) || (|s| > 0 && Contains(s[1..], p))
  }

  predicate OccursAt(s: string, p: string, i: int) {
    0 <= i && i + |p| <= |s| && s[i..i + |p|] == p
  }

  /** An occurrence at the front is a prefix. */
  lemma OccursAtZero(s: string, p: string)
    ensures OccursAt(s, p, 0) <==> StartsWith(s, p)
  {
    if |p| <= |s| {
      assert s[0..|p|] == s[..|p|];
    }
  }

  /** An occurrence in the tail is an occurrence one position further on. */
  lemma OccursShift(s: string, p: string, i: int)
    requires |s| > 0 && OccursAt(s[1..], p, i)
    ensures OccursAt(s, p, i + 1)
  {
    assert s[1..][i..i + |p|] == s[i + 1..i + 1 + |p|];
  }

  /** An occurrence after the front is an occurrence in the tail. */
  lemma OccursUnshift(s: string, p: string, i: int)
    requires i > 0 && OccursAt(s, p, i)
    ensures OccursAt(s[1..], p, i - 1)
  {
    assert s[1..][i - 1..i - 1 + |p|] == s[i..i + |p|];
  }

  /** The search finds `p` exactly when it occurs at some position of `s`. */
  lemma {:induction false} ContainsIffOccurs(s: string, p: string)
    ensures Contains(s, p) <==> exists i :: OccursAt(s, p, i)
    decreases |s|
  {
    OccursAtZero(s, p);
    if StartsWith(s, p) {
      assert OccursAt(s, p, 0);
    } else if |s| > 0 {
      ContainsIffOccurs(s[1..], p);
      if Contains(s[1..], p) {
        var i :| OccursAt(s[1..], p, i);
        OccursShift(s, p, i);
      } else {
        forall i | i > 0 ensures !OccursAt(s, p, i) {
          if OccursAt(s, p, i) {
            OccursUnshift(s, p, i);
          }
        }
      }
    }
  }

  /** The characters JavaScript's `trim` removes: WhiteSpace and LineTerminator. */
  const Spaces: set<char> := {
    '\t', '\n', '\U{000B}', '\U{000C}', '\r', ' ', '\U{00A0}', '\U{1680}',
    '\U{2000}', '\U{2001}', '\U{2002}', '\U{2003}', '\U{2004}', '\U{2005}',
    '\U{2006}', '\U{2007}', '\U{2008}', '\U{2009}', '\U{200A}',
    '\U{2028}', '\U{2029}', '\U{202F}', '\U{205F}', '\U{3000}', '\U{FEFF}'
  }

  predicate IsSpace(c: char) {
    c in Spaces
  }

  predicate Blank(s: string) {
    forall k :: 0 <= k < |s| ==> IsSpace(s[k])
  }

  /** The number of white-space characters at the front of `s`. */
  function LeadingSpaces(s: string): (n: nat)
    ensures n <= |s|
    ensures forall k :: 0 <= k < n ==> IsSpace(s[k])
    ensures n == |s| || !IsSpace(s[n])
  {
    if |s| > 0 && IsSpace(s[0]) then
      var m := LeadingSpaces(s[1..]);
      assert forall k :: 1 <= k < m + 1 ==> s[k] == s[1..][k - 1];
      m + 1
    else 0
  }

  /** Drops leading white space: the result is the suffix after a blank prefix. */
  function TrimStart(s: string): (r: string)
    ensures |r| <= |s| && r == s[|s| - |r|..]
    ensures Blank(s[..|s| - |r|])
    ensures r == [] || !IsSpace(r[0])
  {
    var n := LeadingSpaces(s);
    assert forall k :: 0 <= k < n ==> s[..n][k] == s[k];
    s[n..]
  }

  /** Drops trailing white space: the result is the prefix before a blank suffix. */
  function TrimEnd(s: string): (r: string)
    ensures |r| <= |s| && r == s[..|r|]
    ensures Blank(s[|r|..])
    ensures r == [] || !IsSpace(r[|r| - 1])
  {
    if |s| > 0 && IsSpace(s[|s| - 1]) then
      var r := TrimEnd(s[..|s| - 1]);
      assert s[|r|..] == s[..|s| - 1][|r|..] + [s[|s| - 1]];
      r
    else s
  }

  /** `s.trim()` */
  function Trim(s: string): (r: string)
    ensures r == [] || (!IsSpace(r[0]) && !IsSpace(r[|r| - 1]))
  {
    var t := TrimStart(s);
    assert t == [] || !IsSpace(t[0]);
    TrimEnd(t)
  }

  /** A string trims to nothing exactly when it is all white space. */
  lemma TrimEmptyIffBlank(s: string)
    ensures Trim(s) == [] <==> Blank(s)
  {
    var t := TrimStart(s);
    var n := |s| - |t|;
    if Trim(s) == [] {
      assert Blank(t[|TrimEnd(t)|..]);
      assert |t| == 0;
      forall k | 0 <= k < |s| ensures IsSpace(s[k]) {
        assert s[..n][k] == s[k];
      }
    } else {
      var r := Trim(s);
      assert r[0] == t[0] == s[n];
    }
  }

  /** A string that neither starts nor ends with white space is its own trim. */
  lemma TrimFixesTrimmed(s: string)
    requires s == [] || (!IsSpace(s[0]) && !IsSpace(s[|s| - 1]))
    ensures Trim(s) == s
  {
    assert LeadingSpaces(s) == 0;
    assert s[0..] == s;
    assert TrimStart(s) == s;
    assert TrimEnd(s) == s;
  }

  /** Trimming twice is trimming once. */
  lemma TrimIsIdempotent(s: string)
    ensures Trim(Trim(s)) == Trim(s)
  {
    TrimFixesTrimmed(Trim(s));
  }

  /** Count(s, c): the number of occurrences of `c` in `s`. */
  function Count(s: string, c: char): nat {
    if |s| == 0 then 0 else (if s[0] == c then 1 else 0) + Count(s[1..], c)
  }

  predicate NoNewline(piece: string) {
    forall k :: 0 <= k < |piece| ==> piece[k] != '\n'
  }

  /** `pieces.join('\n')` */
  function Join(pieces: seq<string>): string
    requires |pieces| > 0
  {
    if |pieces| == 1 then pieces[0] else pieces[0] + "\n" + Join(pieces[1..])
  }

  /**
   * `s.split('\n')`: the pieces between newlines, in order. The empty string
   * gives one empty piece, and a trailing newline gives a trailing empty piece.
   */
  function Split(s: string): (pieces: seq<string>)
    ensures |pieces| == Count(s, '\n') + 1
    ensures forall k :: 0 <= k < |pieces| ==> NoNewline(pieces[k])
    ensures Join(pieces) == s
  {
    if |s| == 0 then [""]
    else
      var rest := Split(s[1..]);
      if s[0] == '\n' then
        assert Join([""] + rest) == "" + "\n" + Join(rest);
        [""] + rest
      else
        var first := [s[0]] + rest[0];
        assert NoNewline(first) by {
          forall k | 0 <= k < |first| ensures first[k] != '\n' {
            if k > 0 { assert first[k] == rest[0][k - 1]; }
          }
        }
        var r := [first] + rest[1..];
        assert r[1..] == rest[1..];
        assert Join(r) == s by {
          if |rest| == 1 {
            assert Join(r) == first == [s[0]] + Join(rest);
          } else {
            assert Join(rest) == rest[0] + "\n" + Join(rest[1..]);
            assert Join(r) == first + "\n" + Join(rest[1..]);
          }
          assert s == [s[0]] + s[1..];
        }
        r
  }

  /**
   * Split inverts Join: any non-empty list of newline-free pieces that joins
   * to `s` is exactly Split(s).
   */
  lemma {:induction false} SplitUnique(s: string, pieces: seq<string>)
    requires |pieces| > 0
    requires forall k :: 0 <= k < |pieces| ==> NoNewline(pieces[k])
    requires Join(pieces) == s
    ensures pieces == Split(s)
    decreases |s|
  {
    if pieces[0] == "" {
      if |pieces| == 1 {
        assert s == "";
      } else {
        assert s == "\n" + Join(pieces[1..]);
        assert s[1..] == Join(pieces[1..]);
        SplitUnique(s[1..], pieces[1..]);
        assert pieces == [""] + pieces[1..];
      }
    } else {
      var head := pieces[0];
      var shorter := [head[1..]] + pieces[1..];
      assert shorter[1..] == pieces[1..];
      assert Join(shorter) == s[1..] by {
        if |pieces| == 1 {
          assert s == head;
        } else {
          assert s == head + "\n" + Join(pieces[1..]);
          assert head == [head[0]] + head[1..];
        }
      }
      assert s[0] == head[0] by {
        if |pieces| > 1 { assert s == head + ("\n" + Join(pieces[1..])); }
      }
      assert NoNewline(shorter[0]) by {
        forall k | 0 <= k < |shorter[0]| ensures shorter[0][k] != '\n' {
          assert shorter[0][k] == head[k + 1];
        }
      }
      assert head[0] != '\n';
      SplitUnique(s[1..], shorter);
      var rest := Split(s[1..]);
      assert [s[0]] + rest[0] == head;
      assert pieces == [[s[0]] + rest[0]] + rest[1..];
    }
  }

  /** How a rendered line shows its text: an empty line becomes one no-break space. */
  function Display(line: string): (shown: string)
    ensures |shown| > 0
    ensures line != "" ==> shown == line
  {
    if line == "" then "\U{00A0}" else line
  }

  predicate IsDigit(c: char) {
    '0' <= c <= '9'
  }

  predicate AllDigits(s: string) {
    forall k :: 0 <= k < |s| ==> IsDigit(s[k])
  }

  /** A string of digits has no white space to trim. */
  lemma DigitsAreTrimmed(s: string)
    requires AllDigits(s)
    ensures Trim(s) == s
  {
    if s != [] {
      assert IsDigit(s[0]) && IsDigit(s[|s| - 1]);
    }
    TrimFixesTrimmed(s);
  }

  /** `s.replace(/\D/g, '')`: keeps the decimal digits, in order. */
  function KeepDigits(s: string): (r: string)
    ensures AllDigits(r)
    ensures |r| <= |s|
    ensures forall c :: IsDigit(c) ==> Count(r, c) == Count(s, c)
  {
    if |s| == 0 then ""
    else
      var rest := KeepDigits(s[1..]);
      if IsDigit(s[0]) then
        assert ([s[0]] + rest)[1..] == rest;
        [s[0]] + rest
      else rest
  }

  /** The filter works character by character: filtering a concatenation concatenates the filtered parts. */
  lemma {:induction false} KeepDigitsAppend(a: string, b: string)
    ensures KeepDigits(a + b) == KeepDigits(a) + KeepDigits(b)
  {
    if |a| == 0 {
      assert a + b == b;
    } else {
      assert (a + b)[0] == a[0];
      assert (a + b)[1..] == a[1..] + b;
      KeepDigitsAppend(a[1..], b);
    }
  }

  /** The filter changes nothing exactly on digit strings, so it is idempotent. */
  lemma {:induction false} KeepDigitsFixedIffDigits(s: string)
    ensures KeepDigits(s) == s <==> AllDigits(s)
  {
    if |s| > 0 {
      KeepDigitsFixedIffDigits(s[1..]);
      if IsDigit(s[0]) {
        assert AllDigits(s) <==> AllDigits(s[1..]) by {
          if AllDigits(s[1..]) {
            forall k | 0 <= k < |s| ensures IsDigit(s[k]) {
              if k > 0 { assert s[k] == s[1..][k - 1]; }
            }
          }
        }
        assert KeepDigits(s) == s <==> KeepDigits(s[1..]) == s[1..] by {
          assert s == [s[0]] + s[1..];
        }
      } else {
        assert |KeepDigits(s)| < |s|;
      }
    }
  }

  function DigitValue(c: char): nat
    requires IsDigit(c)
  {
    c as int - '0' as int
  }

  function DigitChar(d: nat): (c: char)
    requires d < 10
    ensures IsDigit(c) && DigitValue(c) == d
  {
    ('0' as int + d) as char
  }

  function Pow10(k: nat): (p: nat)
    ensures p >= 1
  {
    if k == 0 then 1 else 10 * Pow10(k - 1)
  }

  /**
   * `Number(s)` for a string of decimal digits (the empty string reads as 0).
   * A number of k digits is below 10^k, and at least 10^(k-1) without a leading zero.
   */
  function ParseDecimal(s: string): (n: nat)
    requires AllDigits(s)
    ensures n < Pow10(|s|)
    ensures |s| > 0 && s[0] != '0' ==> Pow10(|s| - 1) <= n
  {
    if |s| == 0 then 0
    else
      var front := s[..|s| - 1];
      assert |front| > 0 ==> front[0] == s[0];
      10 * ParseDecimal(front) + DigitValue(s[|s| - 1])
  }

  /** A number in a template string: its decimal digits, no leading zeros. */
  function DecimalString(n: nat): (s: string)
    ensures |s| > 0 && AllDigits(s)
    ensures |s| > 1 ==> s[0] != '0'
  {
    if n < 10 then [DigitChar(n)] else DecimalString(n / 10) + [DigitChar(n % 10)]
  }

  /** Printing the value of a digit string without a leading zero gives the string back. */
  lemma {:induction false} DecimalStringOfParse(s: string)
    requires AllDigits(s) && |s| > 0 && (|s| > 1 ==> s[0] != '0')
    ensures DecimalString(ParseDecimal(s)) == s
  {
    var last := s[|s| - 1];
    assert DigitChar(DigitValue(last)) == last;
    if |s| > 1 {
      var front := s[..|s| - 1];
      assert front[0] == s[0];
      var p := ParseDecimal(front);
      var n := ParseDecimal(s);
      assert n == 10 * p + DigitValue(last);
      assert n / 10 == p && n % 10 == DigitValue(last);
      DecimalStringOfParse(front);
      assert s == front + [last];
    }
  }

  /** Reading back a printed number gives the number. */
  lemma {:induction false} ParseDecimalString(n: nat)
    ensures ParseDecimal(DecimalString(n)) == n
  {
    if n >= 10 {
      var s := DecimalString(n);
      assert s[..|s| - 1] == DecimalString(n / 10);
      ParseDecimalString(n / 10);
    }
  }
}
