/** Lexing CALC numbers and operators: one forward scan finds the longest spelling. */
module CalcLexer {
  import opened Options

  predicate IsDigit(c: char) {
    '0' <= c <= '9'
  }

  // ----- The float grammar -----

  predicate Digits(t: string) {
    forall i :: 0 <= i < |t| ==> IsDigit(t[i])
  }

  /** Digits with at most one point, which has a digit on one side or the other. */
  ghost predicate Mantissa(t: string) {
    (t != "" && Digits(t)) || exists k :: PointAt(t, k)
  }

  predicate PointAt(t: string, k: int) {
    0 <= k < |t| && t[k] == '.' && |t| >= 2 && Digits(t[..k]) && Digits(t[k + 1..])
  }

  predicate Signed(t: string) {
    t != "" && (t[0] == '+' || t[0] == '-')
  }

  /** `e` or `E`, an optional sign, and at least one digit. */
  predicate Exponent(t: string) {
    && t != "" && (t[0] == 'e' || t[0] == 'E')
    && var digits := if Signed(t[1..]) then t[2..] else t[1..];
       digits != "" && Digits(digits)
  }

  ghost predicate IsFloat(t: string) {
    Mantissa(t) || exists k :: SplitAt(t, k)
  }

  ghost predicate SplitAt(t: string, k: int) {
    0 <= k <= |t| && Mantissa(t[..k]) && Exponent(t[k..])
  }

  // ----- The scan -----

  /** Skip digits from `from` on. */
  method SkipDigits(s: string, from: nat) returns (end: nat)
    requires from <= |s|
    ensures from <= end <= |s| && Digits(s[from..end])
    ensures end < |s| ==> !IsDigit(s[end])
  {
    end := from;
    while end < |s| && IsDigit(s[end])
      invariant from <= end <= |s| && Digits(s[from..end])
    {
      assert s[from..end + 1] == s[from..end] + [s[end]];
      end := end + 1;
    }
  }

  /** Where the mantissa scan stops: every character before `end` is a digit or the one point,
      and the scan could go no further. */
  ghost predicate MantissaEnd(s: string, point: nat, end: nat) {
    && point <= end <= |s|
    && Digits(s[..point])
    && (point < |s| ==> !IsDigit(s[point]))
    && (end == point || (s[point] == '.' && end >= 2 && Digits(s[point + 1..end])
                         && (end < |s| ==> !IsDigit(s[end]))))
    && (end == point && point < |s| && s[point] == '.' ==> point == 0 && (1 < |s| ==> !IsDigit(s[1])))
  }

  /** The decimal branch: digits, a point with a digit beside it, a complete exponent. */
  method ScanDecimal(s: string) returns (len: Option<nat>)
    ensures len.Some? ==> len.value <= |s| && IsFloat(s[..len.value])
    ensures len.Some? ==> forall n :: len.value < n <= |s| ==> !IsFloat(s[..n])
    ensures len.None? ==> forall n :: 0 <= n <= |s| ==> !IsFloat(s[..n])
  {
    var point := SkipDigits(s, 0);
    var end := point;
    if end < |s| && s[end] == '.' {
      var after := SkipDigits(s, end + 1);
      if after > end + 1 || end > 0 {
        end := after;
      }
    }
    assert MantissaEnd(s, point, end);
    if end == 0 {
      NoFloat(s, point);
      return None;
    }
    ScannedMantissa(s, point, end);
    var stop := end;
    if end < |s| && (s[end] == 'e' || s[end] == 'E') {
      var after := end + 1;
      if after < |s| && (s[after] == '+' || s[after] == '-') {
        after := after + 1;
      }
      var digitsAt := after;
      after := SkipDigits(s, digitsAt);
      if after > digitsAt {
        ScannedExponent(s, end, digitsAt, after);
        stop := after;
      }
      LongestExponent(s, point, end, digitsAt, after);
    } else {
      NoExponent(s, point, end);
    }
    len := Some(stop);
  }

  // ----- Why the scan finds the longest float -----

  /** Nothing longer than the scanned part is a mantissa. */
  lemma {:induction false} LongestMantissa(s: string, point: nat, end: nat, n: nat)
    requires MantissaEnd(s, point, end) && n <= |s| && Mantissa(s[..n])
    ensures n <= end && end > 0
  {
    assert forall i :: 0 <= i < point ==> s[..point][i] == s[i];
    if !Digits(s[..n]) {
      var k :| PointAt(s[..n], k);
      assert s[..n][k] == '.';
    }
  }

  lemma {:induction false} NoFloat(s: string, point: nat)
    requires MantissaEnd(s, point, 0)
    ensures forall n :: 0 <= n <= |s| ==> !IsFloat(s[..n])
  {
    forall n | 0 <= n <= |s| ensures !IsFloat(s[..n]) {
      if Mantissa(s[..n]) {
        LongestMantissa(s, point, 0, n);
      } else if exists k :: SplitAt(s[..n], k) {
        var k :| SplitAt(s[..n], k);
        assert s[..n][..k] == s[..k];
        LongestMantissa(s, point, 0, k);
      }
    }
  }

  lemma {:induction false} ScannedMantissa(s: string, point: nat, end: nat)
    requires MantissaEnd(s, point, end) && end > 0
    ensures Mantissa(s[..end])
  {
    if end > point {
      assert s[..end][..point] == s[..point] && s[..end][point + 1..] == s[point + 1..end];
      assert PointAt(s[..end], point);
    }
  }

  /** An exponent can only start where the mantissa scan stopped. */
  lemma {:induction false} ExponentStart(s: string, point: nat, end: nat, n: nat, k: nat)
    requires MantissaEnd(s, point, end) && end > 0 && n <= |s| && SplitAt(s[..n], k)
    ensures k == end
  {
    assert s[..n][..k] == s[..k] && s[..n][k..] == s[k..n];
    LongestMantissa(s, point, end, k);
    assert s[k..n][0] == s[k];
    if k < end {
      ScannedChar(s, point, end, k);
    }
  }

  lemma {:induction false} ScannedChar(s: string, point: nat, end: nat, k: nat)
    requires MantissaEnd(s, point, end) && k < end
    ensures IsDigit(s[k]) || s[k] == '.'
  {
    if k < point {
      assert s[..point][k] == s[k];
    } else if k > point {
      assert s[point + 1..end][k - point - 1] == s[k];
    }
  }

  lemma {:induction false} ScannedExponent(s: string, end: nat, digitsAt: nat, after: nat)
    requires end < digitsAt < after <= |s| && Mantissa(s[..end]) && (s[end] == 'e' || s[end] == 'E')
    requires digitsAt == (if end + 1 < |s| && (s[end + 1] == '+' || s[end + 1] == '-') then end + 2 else end + 1)
    requires Digits(s[digitsAt..after])
    ensures IsFloat(s[..after])
  {
    var t := s[..after];
    assert t[..end] == s[..end];
    var e := t[end..];
    assert e[0] == s[end] && e[1..] == s[end + 1..after];
    assert e[1..][0] == s[end + 1];
    assert (if Signed(e[1..]) then e[2..] else e[1..]) == s[digitsAt..after];
    assert SplitAt(t, end);
  }

  lemma {:induction false} LongestExponent(s: string, point: nat, end: nat, digitsAt: nat, after: nat)
    requires MantissaEnd(s, point, end) && end > 0 && end < digitsAt <= after <= |s|
    requires digitsAt == (if end + 1 < |s| && (s[end + 1] == '+' || s[end + 1] == '-') then end + 2 else end + 1)
    requires Digits(s[digitsAt..after]) && (after < |s| ==> !IsDigit(s[after]))
    ensures forall n :: (if after > digitsAt then after else end) < n <= |s| ==> !IsFloat(s[..n])
  {
    forall n | (if after > digitsAt then after else end) < n <= |s| ensures !IsFloat(s[..n]) {
      if Mantissa(s[..n]) {
        LongestMantissa(s, point, end, n);
      } else if exists k :: SplitAt(s[..n], k) {
        var k :| SplitAt(s[..n], k);
        ExponentStart(s, point, end, n, k);
        assert s[..n][end..] == s[end..n];
        ExponentBound(s, end, digitsAt, after, n);
      }
    }
  }

  lemma {:induction false} ExponentBound(s: string, end: nat, digitsAt: nat, after: nat, n: nat)
    requires end < digitsAt <= after <= |s| && end <= n <= |s| && Exponent(s[end..n])
    requires digitsAt == (if end + 1 < |s| && (s[end + 1] == '+' || s[end + 1] == '-') then end + 2 else end + 1)
    requires after < |s| ==> !IsDigit(s[after])
    ensures digitsAt < n <= after
  {
    var e := s[end..n];
    assert e[1..] == s[end + 1..n];
    assert n > end + 1 ==> e[1..][0] == s[end + 1];
    assert (if Signed(e[1..]) then e[2..] else e[1..]) == s[digitsAt..n];
    DigitsStop(s, digitsAt, n, after);
  }

  lemma {:induction false} DigitsStop(s: string, from: nat, to: nat, stop: nat)
    requires from <= to <= |s| && Digits(s[from..to]) && from <= stop
    requires stop < |s| ==> !IsDigit(s[stop])
    ensures to <= stop
  {
    assert forall i :: from <= i < to ==> s[from..to][i - from] == s[i];
  }

  lemma {:induction false} NoExponent(s: string, point: nat, end: nat)
    requires MantissaEnd(s, point, end) && end > 0
    requires end < |s| ==> s[end] != 'e' && s[end] != 'E'
    ensures forall n :: end < n <= |s| ==> !IsFloat(s[..n])
  {
    forall n | end < n <= |s| ensures !IsFloat(s[..n]) {
      if Mantissa(s[..n]) {
        LongestMantissa(s, point, end, n);
      } else if exists k :: SplitAt(s[..n], k) {
        var k :| SplitAt(s[..n], k);
        ExponentStart(s, point, end, n, k);
      }
    }
  }

  // ----- Operators -----

  /** The operator and punctuation spellings, in the order they are tried. */
  const OPS: seq<string> := [
    ">>>", ">>", ">=", ">", "<<", "<=", "<", "**", "*", ":=", ":", "==", "=",
    "!=", "!", "&&", "&", "||", "|", "+", "-", "/", "%", "^", "~", "#", "(",
    ")", ",", "?", ";"]

  /** No spelling is tried before a longer one that starts with it. */
  predicate LongerFirst(ops: seq<string>) {
    forall i, j :: 0 <= i < j < |ops| ==> !(ops[i] <= ops[j])
  }

  /** In a list ordered this way the first match is the longest match. */
  lemma {:induction false} FirstMatchIsLongest(ops: seq<string>, s: string, i: nat, j: nat)
    requires LongerFirst(ops) && i < |ops| && j < |ops| && ops[i] <= s && ops[j] <= s
    requires forall k :: 0 <= k < i ==> !(ops[k] <= s)
    ensures |ops[j]| <= |ops[i]|
  {
    assert ops[i] == s[..|ops[i]|] && ops[j] == s[..|ops[j]|];
  }

  /** Two spellings in the table differ in one of their first two characters, unless the
      earlier one is the longer. */
  lemma {:induction false} PairDiffers(i: nat, j: nat)
    requires i < j < |OPS|
    ensures 1 <= |OPS[i]| && 1 <= |OPS[j]|
    ensures |OPS[i]| > |OPS[j]| || OPS[i][0] != OPS[j][0] || (|OPS[i]| >= 2 && OPS[i][1] != OPS[j][1])
  {
  }

  /** The table is ordered that way, so operator lexing takes the longest spelling. */
  lemma {:induction false} OpsAreOrdered()
    ensures LongerFirst(OPS)
  {
    hide OPS;
    forall i, j | 0 <= i < j < |OPS| ensures !(OPS[i] <= OPS[j]) {
      PairDiffers(i, j);
    }
  }

  /** Try the spellings in order: the first that the source starts with is the longest one. */
  method LexOperator(s: string) returns (r: Option<string>)
    ensures r.None? ==> forall i :: 0 <= i < |OPS| ==> !(OPS[i] <= s)
    ensures r.Some? ==> r.value in OPS && r.value <= s
    ensures r.Some? ==> forall i :: 0 <= i < |OPS| && OPS[i] <= s ==> |OPS[i]| <= |r.value|
  {
    hide OPS;
    OpsAreOrdered();
    for i := 0 to |OPS|
      invariant forall j :: 0 <= j < i ==> !(OPS[j] <= s)
    {
      if OPS[i] <= s {
        forall j | 0 <= j < |OPS| && OPS[j] <= s ensures |OPS[j]| <= |OPS[i]| {
          FirstMatchIsLongest(OPS, s, i, j);
        }
        return Some(OPS[i]);
      }
    }
    r := None;
  }
}
