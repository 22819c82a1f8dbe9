/** The waste-percentage normalisation of the material import
    (init_db.py:33-53): take the first run of digits, dots and commas, turn
    commas into dots, parse it as a float and divide by 100. */
module Waste {
  import opened Models

  /** ASCII digits. Python's `\d` and `float()` also accept the decimal
      digits of other scripts, which this model does not recognise. */
  predicate IsDigit(c: char)
  {
    '0' <= c <= '9'
  }

  /** The character class `[\d.,]`. */
  predicate IsTokenChar(c: char)
  {
    IsDigit(c) || c == '.' || c == ','
  }

  predicate NoTokenChar(s: string)
  {
    forall i :: 0 <= i < |s| ==> !IsTokenChar(s[i])
  }

  /** Where the leftmost token character is. */
  function TokenStart(s: string): (r: Option<nat>)
    ensures r.None? <==> NoTokenChar(s)
    ensures r.Some? ==> r.value < |s| && IsTokenChar(s[r.value])
    ensures r.Some? ==> forall i :: 0 <= i < r.value ==> !IsTokenChar(s[i])
  {
    if s == [] then None
    else if IsTokenChar(s[0]) then Some(0)
    else match TokenStart(s[1..])
      case None => None
      case Some(k) => Some(k + 1)
  }

  /** The longest prefix made of token characters: the greedy `+`. */
  function TokenRun(s: string): (r: string)
    ensures |r| <= |s| && r == s[..|r|]
    ensures forall i :: 0 <= i < |r| ==> IsTokenChar(r[i])
    ensures |r| == |s| || !IsTokenChar(s[|r|])
  {
    if s != [] && IsTokenChar(s[0]) then [s[0]] + TokenRun(s[1..]) else []
  }

  /** `re.search(r'[\d.,]+', s)`: the leftmost maximal run of token
      characters, or None when there is none. */
  function FirstToken(s: string): (r: Option<string>)
    ensures r.None? <==> NoTokenChar(s)
    ensures r.Some? ==>
              var k := TokenStart(s).value;
              && 0 < |r.value| && k + |r.value| <= |s|
              && r.value == s[k..k + |r.value|]
              && (forall i :: 0 <= i < |r.value| ==> IsTokenChar(r.value[i]))
              && (k + |r.value| == |s| || !IsTokenChar(s[k + |r.value|]))
  {
    match TokenStart(s)
    case None => None
    case Some(k) => Some(TokenRun(s[k..]))
  }

  /** `.replace(',', '.')` */
  function CommasToDots(t: string): (r: string)
    ensures |r| == |t|
    ensures forall i :: 0 <= i < |t| ==> r[i] == (if t[i] == ',' then '.' else t[i])
  {
    if t == [] then [] else [if t[0] == ',' then '.' else t[0]] + CommasToDots(t[1..])
  }

  predicate DigitsAndDots(t: string)
  {
    forall i :: 0 <= i < |t| ==> IsDigit(t[i]) || t[i] == '.'
  }

  predicate AllDigits(t: string)
  {
    forall i :: 0 <= i < |t| ==> IsDigit(t[i])
  }

  function DigitsValue(t: string): nat
    requires AllDigits(t)
  {
    if t == [] then 0
    else DigitsValue(t[..|t| - 1]) * 10 + (t[|t| - 1] as int - '0' as int)
  }

  function Pow10(n: nat): (r: nat)
    ensures r >= 1
  {
    if n == 0 then 1 else 10 * Pow10(n - 1)
  }

  predicate NoDot(t: string)
  {
    forall i :: 0 <= i < |t| ==> t[i] != '.'
  }

  /** Index of the first dot. */
  function DotIndex(t: string): (r: Option<nat>)
    ensures r.None? <==> NoDot(t)
    ensures r.Some? ==> r.value < |t| && t[r.value] == '.' && forall i :: 0 <= i < r.value ==> t[i] != '.'
  {
    if t == [] then None
    else if t[0] == '.' then Some(0)
    else match DotIndex(t[1..])
      case None => None
      case Some(k) => Some(k + 1)
  }

  predicate AtMostOneDot(t: string)
  {
    forall i, j :: 0 <= i < j < |t| && t[i] == '.' ==> t[j] != '.'
  }

  predicate HasDigit(t: string)
  {
    exists i :: 0 <= i < |t| && IsDigit(t[i])
  }

  /** Python `float(t)` on digits and dots: it succeeds exactly when there is
      at most one dot and at least one digit ("1", "1.", ".5", "1.5"); "." or
      "1.2.3" raise ValueError, here None. */
  function ParseNumber(t: string): (r: Option<real>)
    requires DigitsAndDots(t)
    ensures r.Some? <==> AtMostOneDot(t) && HasDigit(t)
    ensures r.Some? ==> r.value >= 0.0
  {
    match DotIndex(t)
    case None =>
      if t == [] then None
      else
        assert IsDigit(t[0]);
        Some(DigitsValue(t) as real)
    case Some(k) =>
      var whole := t[..k];
      var fraction := t[k + 1..];
      if !NoDot(fraction) then
        assert !AtMostOneDot(t) by {
          var j :| 0 <= j < |fraction| && fraction[j] == '.';
          assert t[k + 1 + j] == '.';
        }
        None
      else if whole == [] && fraction == [] then
        assert t == ".";
        None
      else
        assert AtMostOneDot(t) by {
          forall i, j | 0 <= i < j < |t| && t[i] == '.'
            ensures t[j] != '.'
          {
            assert i == k;
            assert t[j] == fraction[j - k - 1];
          }
        }
        assert HasDigit(t) by {
          if whole != [] {
            assert IsDigit(t[0]);
          } else {
            assert IsDigit(t[k + 1]);
          }
        }
        assert AllDigits(whole) && AllDigits(fraction);
        Some(DecimalValue(whole, fraction))
  }

  /** The number written `whole.fraction`: all of its digits read as one
      integer, divided by ten once per fraction digit. */
  function DecimalValue(whole: string, fraction: string): real
    requires AllDigits(whole) && AllDigits(fraction)
  {
    DigitsAppend(whole, fraction);
    DigitsValue(whole + fraction) as real / Pow10(|fraction|) as real
  }

  lemma DigitsAppend(w: string, f: string)
    requires AllDigits(w) && AllDigits(f)
    ensures AllDigits(w + f)
  {
    assert forall i :: 0 <= i < |w + f| ==> (w + f)[i] == if i < |w| then w[i] else f[i - |w|];
  }

  /** Reading w followed by f as one number shifts w left by |f| digits. */
  lemma {:induction false} DigitsValueAppend(w: string, f: string)
    requires AllDigits(w) && AllDigits(f)
    ensures AllDigits(w + f)
    ensures DigitsValue(w + f) == DigitsValue(w) * Pow10(|f|) + DigitsValue(f)
  {
    var s := w + f;
    assert forall i :: 0 <= i < |s| ==> s[i] == if i < |w| then w[i] else f[i - |w|];
    if f == [] {
      assert s == w;
    } else {
      var g := f[..|f| - 1];
      assert s[..|s| - 1] == w + g;
      DigitsValueAppend(w, g);
      var d := f[|f| - 1] as int - '0' as int;
      calc {
        DigitsValue(s);
        DigitsValue(w + g) * 10 + d;
        (DigitsValue(w) * Pow10(|g|) + DigitsValue(g)) * 10 + d;
        { MulShift(DigitsValue(w), Pow10(|g|)); }
        DigitsValue(w) * Pow10(|f|) + (DigitsValue(g) * 10 + d);
        DigitsValue(w) * Pow10(|f|) + DigitsValue(f);
      }
    }
  }

  lemma MulShift(a: nat, p: nat)
    ensures a * p * 10 == a * (10 * p)
  {
  }

  /** `float()` of a run of digits is the integer they spell. */
  lemma ParseDigits(t: string)
    requires t != [] && AllDigits(t)
    ensures DigitsAndDots(t)
    ensures ParseNumber(t) == Some(DigitsValue(t) as real)
  {
    assert DotIndex(t).None? by {
      assert NoDot(t) by {
        assert forall i :: 0 <= i < |t| ==> IsDigit(t[i]);
      }
    }
  }

  /** `float()` of digits around one dot is the integer spelt by all the
      digits, divided by ten to the number of fraction digits: "12.5" is
      125 / 10. */
  lemma ParseWithDot(w: string, f: string)
    requires AllDigits(w) && AllDigits(f) && w + f != []
    ensures DigitsAndDots(w + "." + f) && AllDigits(w + f)
    ensures ParseNumber(w + "." + f) == Some(DigitsValue(w + f) as real / Pow10(|f|) as real)
  {
    var t := w + "." + f;
    DotAfterDigits(w, f);
    DigitsAppend(w, f);
    assert forall i :: |w| < i < |t| ==> t[i] == f[i - |w| - 1];
    ParseSingleDot(t, |w|);
    assert t[..|w|] == w && t[|w| + 1..] == f;
  }

  /** The branch of `ParseNumber` for a single dot at k with a digit around it. */
  lemma ParseSingleDot(t: string, k: nat)
    requires DigitsAndDots(t) && DotIndex(t) == Some(k)
    requires forall i :: k < i < |t| ==> t[i] != '.'
    requires 1 < |t|
    ensures AllDigits(t[..k]) && AllDigits(t[k + 1..])
    ensures ParseNumber(t) == Some(DecimalValue(t[..k], t[k + 1..]))
  {
    assert forall i :: 0 <= i < k ==> t[..k][i] == t[i];
    assert forall i :: k < i < |t| ==> t[k + 1..][i - k - 1] == t[i];
    assert NoDot(t[k + 1..]);
    assert !(t[..k] == [] && t[k + 1..] == []);
  }

  /** In w + "." + f the only dot is the one after w. */
  lemma DotAfterDigits(w: string, f: string)
    requires AllDigits(w) && AllDigits(f)
    ensures DigitsAndDots(w + "." + f)
    ensures DotIndex(w + "." + f) == Some(|w|)
    ensures NoDot(f)
  {
    var t := w + "." + f;
    assert forall i :: 0 <= i < |t| ==> t[i] == if i < |w| then w[i] else if i == |w| then '.' else f[i - |w| - 1];
    assert t[|w|] == '.';
    var k := DotIndex(t).value;
    assert !(k < |w|);
  }

  /** The two overlapping branches of init_db.py:44-51: values of 1 and more
      are divided by 100, then values in (0, 10] are divided by 100. For
      every non-negative value they amount to one division by 100, so a
      value already written as a fraction (0.008) is divided as well. */
  function Classify(v: real): (r: real)
    ensures v >= 0.0 ==> r == v / 100.0
  {
    var d := if v >= 1.0 then v / 100.0 else v;
    if 0.0 < v <= 10.0 then v / 100.0 else d
  }

  /** The stored waste fraction for a spreadsheet cell, or None when `float()`
      raises and the import stops. */
  function NormalizeWaste(s: string): (r: Option<real>)
    ensures NoTokenChar(s) ==> r == Some(0.0)
    ensures r.Some? ==> r.value >= 0.0
    ensures FirstToken(s).Some? ==>
              var number := ParseNumber(CommasToDots(FirstToken(s).value));
              && (r.Some? <==> number.Some?)
              && (r.Some? ==> r.value == number.value / 100.0)
  {
    match FirstToken(s)
    case None => Some(0.0)
    case Some(token) =>
      match ParseNumber(CommasToDots(token))
      case None => None
      case Some(v) => Some(Classify(v))
  }

  /** A token without a digit ("." or ",,") makes `float()` raise. */
  lemma SeparatorOnlyTokenFails(s: string)
    requires FirstToken(s).Some?
    requires forall i :: 0 <= i < |FirstToken(s).value| ==> !IsDigit(FirstToken(s).value[i])
    ensures NormalizeWaste(s).None?
  {
    var t := CommasToDots(FirstToken(s).value);
    assert !HasDigit(t);
  }

  /** The run s[k..k+n] is the token when nothing before it is a token
      character and it cannot be extended. */
  lemma FirstTokenAt(s: string, k: nat, n: nat)
    requires 0 < n && k + n <= |s|
    requires forall i :: 0 <= i < k ==> !IsTokenChar(s[i])
    requires forall i :: k <= i < k + n ==> IsTokenChar(s[i])
    requires k + n == |s| || !IsTokenChar(s[k + n])
    ensures FirstToken(s) == Some(s[k..k + n])
  {
    var start := TokenStart(s);
    assert start.Some? && start.value == k by {
      assert !NoTokenChar(s) by {
        assert IsTokenChar(s[k]);
      }
      assert !(start.value < k);
      assert !(start.value > k) by {
        assert IsTokenChar(s[k]);
      }
    }
  }

  /** Cutting characters that are not token characters from either end
      leaves the token in place. */
  lemma FirstTokenOfSlice(s: string, a: nat, b: nat)
    requires a <= b <= |s|
    requires forall i :: 0 <= i < a ==> !IsTokenChar(s[i])
    requires forall i :: b <= i < |s| ==> !IsTokenChar(s[i])
    ensures FirstToken(s[a..b]) == FirstToken(s)
  {
    var t := s[a..b];
    if FirstToken(s).Some? {
      TokenInsideSlice(s, a, b);
    } else {
      assert NoTokenChar(t) by {
        forall i | 0 <= i < |t| ensures !IsTokenChar(t[i]) {
          assert t[i] == s[a + i];
        }
      }
    }
  }

  lemma TokenInsideSlice(s: string, a: nat, b: nat)
    requires a <= b <= |s| && FirstToken(s).Some?
    requires forall i :: 0 <= i < a ==> !IsTokenChar(s[i])
    requires forall i :: b <= i < |s| ==> !IsTokenChar(s[i])
    ensures FirstToken(s[a..b]) == FirstToken(s)
  {
    var k, n := TokenRunOf(s);
    RunInsideSlice(s, a, b, k, n);
  }

  /** The first token as a run s[k..k+n]: no token character before it, all
      token characters inside, none right after it. */
  lemma TokenRunOf(s: string) returns (k: nat, n: nat)
    requires FirstToken(s).Some?
    ensures 0 < n && k + n <= |s| && FirstToken(s) == Some(s[k..k + n])
    ensures forall i :: 0 <= i < k ==> !IsTokenChar(s[i])
    ensures forall i :: k <= i < k + n ==> IsTokenChar(s[i])
    ensures k + n == |s| || !IsTokenChar(s[k + n])
  {
    var token := FirstToken(s).value;
    k := TokenStart(s).value;
    n := |token|;
    forall i | k <= i < k + n ensures IsTokenChar(s[i]) {
      assert s[i] == token[i - k];
    }
  }

  /** A maximal run of token characters with none before it stays the first
      token of a slice that only cuts non-token characters. */
  lemma RunInsideSlice(s: string, a: nat, b: nat, k: nat, n: nat)
    requires a <= b <= |s| && 0 < n && k + n <= |s|
    requires forall i :: 0 <= i < k ==> !IsTokenChar(s[i])
    requires forall i :: k <= i < k + n ==> IsTokenChar(s[i])
    requires k + n == |s| || !IsTokenChar(s[k + n])
    requires forall i :: 0 <= i < a ==> !IsTokenChar(s[i])
    requires forall i :: b <= i < |s| ==> !IsTokenChar(s[i])
    ensures FirstToken(s[a..b]) == Some(s[k..k + n])
  {
    RunShifted(s, a, b, k, n);
    FirstTokenAt(s[a..b], k - a, n);
    SliceOfSlice(s, a, b, k, n);
  }

  /** The same run, seen from inside the slice s[a..b]. */
  lemma RunShifted(s: string, a: nat, b: nat, k: nat, n: nat)
    requires a <= b <= |s| && 0 < n && k + n <= |s|
    requires forall i :: 0 <= i < k ==> !IsTokenChar(s[i])
    requires forall i :: k <= i < k + n ==> IsTokenChar(s[i])
    requires k + n == |s| || !IsTokenChar(s[k + n])
    requires forall i :: 0 <= i < a ==> !IsTokenChar(s[i])
    requires forall i :: b <= i < |s| ==> !IsTokenChar(s[i])
    ensures a <= k && k + n <= b
    ensures forall i :: 0 <= i < k - a ==> !IsTokenChar(s[a..b][i])
    ensures forall i :: k - a <= i < k - a + n ==> IsTokenChar(s[a..b][i])
    ensures k + n == b || !IsTokenChar(s[a..b][k - a + n])
  {
    assert IsTokenChar(s[k]) && IsTokenChar(s[k + n - 1]);
    var t := s[a..b];
    assert forall i :: 0 <= i < b - a ==> t[i] == s[a + i];
  }

  lemma SliceOfSlice(s: string, a: nat, b: nat, k: nat, n: nat)
    requires a <= k && k + n <= b <= |s|
    ensures s[a..b][k - a..k - a + n] == s[k..k + n]
  {
    var t := s[a..b];
    assert forall i :: 0 <= i < |t| ==> t[i] == s[a + i];
  }

  /** `float("0.80")` is 0.8. */
  lemma ParsePointEighty()
    ensures ParseNumber("0.80") == Some(0.8)
  {
    assert DotIndex("0.80") == Some(1);
    assert "0.80"[..1] == "0" && "0.80"[2..] == "80";
    assert "0" + "80" == "080";
    assert DigitsValue("080") == 80 by {
      assert "080"[..2] == "08" && "08"[..1] == "0";
      assert DigitsValue("0") == 0;
      assert DigitsValue("08") == 8;
    }
    assert Pow10(2) == 100;
  }

  /** "0.80%" is stored as 0.008, as the import's own comment says. */
  lemma NormalizePercentString()
    ensures NormalizeWaste("0.80%") == Some(0.008)
  {
    assert FirstToken("0.80%") == Some("0.80") by {
      FirstTokenAt("0.80%", 0, 4);
      assert "0.80%"[0..4] == "0.80";
    }
    assert CommasToDots("0.80") == "0.80";
    ParsePointEighty();
    assert Classify(0.8) == 0.008;
  }

  /** `float("0.8")` is 0.8. */
  lemma ParsePointEight()
    ensures ParseNumber("0.8") == Some(0.8)
  {
    assert DotIndex("0.8") == Some(1);
    assert "0.8"[..1] == "0" && "0.8"[2..] == "8";
    assert "0" + "8" == "08";
    assert DigitsValue("08") == 8 by {
      assert "08"[..1] == "0";
      assert DigitsValue("0") == 0;
    }
    assert Pow10(1) == 10;
  }

  /** A decimal comma is read as a dot. */
  lemma NormalizeDecimalComma()
    ensures NormalizeWaste("0,8 %") == Some(0.008)
  {
    assert FirstToken("0,8 %") == Some("0,8") by {
      FirstTokenAt("0,8 %", 0, 3);
      assert "0,8 %"[0..3] == "0,8";
    }
    assert CommasToDots("0,8") == "0.8";
    ParsePointEight();
    assert Classify(0.8) == 0.008;
  }

  /** A whole number of percent. */
  lemma NormalizeWholePercent()
    ensures NormalizeWaste("5") == Some(0.05)
  {
    FirstTokenAt("5", 0, 1);
    assert "5"[0..1] == "5";
    assert CommasToDots("5") == "5";
    assert DotIndex("5") == None;
  }

  /** A cell without any digit (an empty cell reads as "nan") gives 0. */
  lemma NormalizeNoNumber()
    ensures NormalizeWaste("nan") == Some(0.0)
  {
    assert NoTokenChar("nan");
  }

  /** A lone dot cannot be parsed and stops the import. */
  lemma NormalizeLoneDot()
    ensures NormalizeWaste(".") == None
  {
    FirstTokenAt(".", 0, 1);
    assert "."[0..1] == ".";
    SeparatorOnlyTokenFails(".");
  }
}
