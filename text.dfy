/** The JavaScript string operations the code relies on, over `seq<char>`. */
module Text {
  import opened Common

  /** JavaScript's WhiteSpace and LineTerminator characters: what `trim` removes and `\s` matches. */
  predicate IsSpace(c: char)
  {
    c == '\t' || c == '\n' || c == '\U{000B}' || c == '\U{000C}' || c == '\r' || c == ' ' ||
    c == '\U{00A0}' || c == '\U{1680}' || ('\U{2000}' <= c <= '\U{200A}') ||
    c == '\U{2028}' || c == '\U{2029}' || c == '\U{202F}' || c == '\U{205F}' ||
    c == '\U{3000}' || c == '\U{FEFF}'
  }

  predicate NoSpace(s: string)
  {
    forall i :: 0 <= i < |s| ==> !IsSpace(s[i])
  }

  predicate AllSpace(s: string)
  {
    forall i :: 0 <= i < |s| ==> IsSpace(s[i])
  }

  /** `String.prototype.trimStart`. */
  function TrimStart(s: string): (r: string)
    ensures |r| <= |s| && r == s[|s| - |r|..]
    ensures r == [] || !IsSpace(r[0])
    ensures AllSpace(s[..|s| - |r|])
  {
    if s != [] && IsSpace(s[0]) then
      var t := s[1..];
      var r := TrimStart(t);
      assert s[|s| - |r|..] == t[|t| - |r|..];
      assert s[..|s| - |r|] == [s[0]] + t[..|t| - |r|];
      r
    else s
  }

  /** `String.prototype.trimEnd`. */
  function TrimEnd(s: string): (r: string)
    ensures |r| <= |s| && r == s[..|r|]
    ensures r == [] || !IsSpace(r[|r| - 1])
    ensures AllSpace(s[|r|..])
  {
    if s != [] && IsSpace(s[|s| - 1]) then
      var t := s[..|s| - 1];
      var r := TrimEnd(t);
      assert t[..|r|] == s[..|r|];
      assert s[|r|..] == t[|r|..] + [s[|s| - 1]];
      r
    else s
  }

  /** `String.prototype.trim`: `trimStart` then `trimEnd`. What the result looks like is stated
      by the lemmas below, so that the facts enter a proof only where they are asked for. */
  function Trim(s: string): (r: string)
    ensures |r| <= |s|
  {
    TrimEnd(TrimStart(s))
  }

  /** The trimmed text is the input with white space cut from both ends: it neither starts nor
      ends with white space. */
  lemma TrimSlice(s: string)
    ensures exists a, b :: 0 <= a <= b <= |s| && Trim(s) == s[a..b] && AllSpace(s[..a]) && AllSpace(s[b..])
    ensures Trim(s) == [] || (!IsSpace(Trim(s)[0]) && !IsSpace(Trim(s)[|Trim(s)| - 1]))
  {
    var t := TrimStart(s);
    var r := TrimEnd(t);
    var a := |s| - |t|;
    assert t == s[a..];
    assert r == s[a..a + |r|];
    assert t[|r|..] == s[a + |r|..];
    if r != [] {
      assert r[0] == t[0];
    }
  }

  /** `trim` gives the empty string exactly when the input is white space only. */
  lemma TrimEmpty(s: string)
    ensures Trim(s) == [] <==> AllSpace(s)
  {
    var t := TrimStart(s);
    var a := |s| - |t|;
    assert t != [] ==> t[0] == s[a];
    if Trim(s) == [] {
      assert AllSpace(t[0..]);
      assert s[..a] == s;
    }
  }

  /** Text without white space is left as it is. */
  lemma TrimNoSpace(s: string)
    requires NoSpace(s)
    ensures Trim(s) == s
  {
    assert s == [] || !IsSpace(s[0]);
    assert TrimStart(s) == s;
    assert s == [] || !IsSpace(s[|s| - 1]);
  }

  lemma TrimIdempotent(s: string)
    ensures Trim(Trim(s)) == Trim(s)
  {
    var r := Trim(s);
    if r != [] {
      var t := TrimStart(r);
      assert t == r;
      var u := TrimEnd(t);
      assert u == r;
    }
  }

  /** `toLowerCase` on one character; only ASCII letters are mapped. */
  function LowerChar(c: char): char
  {
    if 'A' <= c <= 'Z' then (c as int + 32) as char else c
  }

  /** `String.prototype.toLowerCase`, ASCII letters only. */
  function ToLower(s: string): (r: string)
    ensures |r| == |s|
    ensures forall i :: 0 <= i < |s| ==> r[i] == LowerChar(s[i])
  {
    seq(|s|, i requires 0 <= i < |s| => LowerChar(s[i]))
  }

  predicate IsLower(s: string)
  {
    forall i :: 0 <= i < |s| ==> LowerChar(s[i]) == s[i]
  }

  lemma ToLowerIsLower(s: string)
    ensures IsLower(ToLower(s))
    ensures IsLower(s) ==> ToLower(s) == s
    ensures NoSpace(s) ==> NoSpace(ToLower(s))
  {
    var r := ToLower(s);
    forall i | 0 <= i < |r| ensures LowerChar(r[i]) == r[i] && (IsSpace(r[i]) ==> IsSpace(s[i])) {
      assert r[i] == LowerChar(s[i]);
    }
  }

  lemma LowerKeepsSpace(c: char)
    ensures IsSpace(LowerChar(c)) == IsSpace(c)
  {
  }

  lemma ToLowerTrimCommute(s: string)
    ensures ToLower(Trim(s)) == Trim(ToLower(s))
  {
    TrimStartLower(s);
    TrimEndLower(TrimStart(s));
  }

  lemma {:induction false} TrimStartLower(s: string)
    ensures TrimStart(ToLower(s)) == ToLower(TrimStart(s))
  {
    if s != [] {
      LowerKeepsSpace(s[0]);
      assert ToLower(s)[0] == LowerChar(s[0]) && ToLower(s)[1..] == ToLower(s[1..]);
      if IsSpace(s[0]) { TrimStartLower(s[1..]); }
    }
  }

  lemma {:induction false} TrimEndLower(s: string)
    ensures TrimEnd(ToLower(s)) == ToLower(TrimEnd(s))
  {
    if s != [] {
      var n := |s| - 1;
      LowerKeepsSpace(s[n]);
      LowerPrefix(s, n);
      if IsSpace(s[n]) { TrimEndLower(s[..n]); }
    }
  }

  lemma LowerPrefix(s: string, n: nat)
    requires n <= |s|
    ensures ToLower(s)[..n] == ToLower(s[..n])
  {
  }

  /** A character the pattern `[\s_]` matches. */
  predicate IsSep(c: char)
  {
    IsSpace(c) || c == '_'
  }

  predicate NoSep(s: string)
  {
    forall i :: 0 <= i < |s| ==> !IsSep(s[i])
  }

  /** Drops the run of separators at the front of `s`. */
  function SkipSeps(s: string): (r: string)
    ensures |r| <= |s| && r == s[|s| - |r|..]
    ensures s != [] && IsSep(s[0]) ==> |r| < |s|
    ensures r == [] || !IsSep(r[0])
  {
    if s != [] && IsSep(s[0]) then SkipSeps(s[1..]) else s
  }

  /** `s.replace(/[\s_]+/g, "-")`: every maximal run of white space and underscores becomes one "-". */
  function DashRuns(s: string): (r: string)
    ensures NoSep(r)
    decreases |s|
  {
    if s == [] then []
    else if IsSep(s[0]) then "-" + DashRuns(SkipSeps(s[1..]))
    else [s[0]] + DashRuns(s[1..])
  }

  lemma LowerSuffix(s: string, k: nat)
    requires k <= |s| && IsLower(s)
    ensures IsLower(s[k..])
  {
    forall i | 0 <= i < |s| - k ensures LowerChar(s[k..][i]) == s[k..][i] {
      assert s[k..][i] == s[k + i];
    }
  }

  /** Collapsing separator runs introduces no upper-case letter. */
  lemma {:induction false} DashRunsLower(s: string)
    requires IsLower(s)
    ensures IsLower(DashRuns(s))
    decreases |s|
  {
    if s != [] {
      if IsSep(s[0]) {
        var rest := SkipSeps(s[1..]);
        LowerSuffix(s, |s| - |rest|);
        assert s[|s| - |rest|..] == rest;
        DashRunsLower(rest);
      } else {
        LowerSuffix(s, 1);
        DashRunsLower(s[1..]);
      }
    }
  }

  /** The characters of `s` that are neither separators nor dashes, in order. */
  function Letters(s: string): string
  {
    if s == [] then [] else if IsSep(s[0]) || s[0] == '-' then Letters(s[1..]) else [s[0]] + Letters(s[1..])
  }

  lemma {:induction false} LettersOfSkip(s: string)
    ensures Letters(SkipSeps(s)) == Letters(s)
    decreases |s|
  {
    if s != [] && IsSep(s[0]) { LettersOfSkip(s[1..]); }
  }

  /** Collapsing separator runs keeps every other character, in order. */
  lemma {:induction false} DashRunsKeepsLetters(s: string)
    ensures Letters(DashRuns(s)) == Letters(s)
    decreases |s|
  {
    if s != [] {
      if IsSep(s[0]) {
        var rest := SkipSeps(s[1..]);
        DashRunsKeepsLetters(rest);
        LettersOfSkip(s[1..]);
        assert Letters("-" + DashRuns(rest)) == Letters(DashRuns(rest));
      } else {
        DashRunsKeepsLetters(s[1..]);
        assert ([s[0]] + DashRuns(s[1..]))[1..] == DashRuns(s[1..]);
      }
    }
  }

  /** A string without separators is left as it is. */
  lemma {:induction false} DashRunsIdentity(s: string)
    requires NoSep(s)
    ensures DashRuns(s) == s
    decreases |s|
  {
    if s != [] {
      assert NoSep(s[1..]) by { forall i | 0 <= i < |s[1..]| ensures !IsSep(s[1..][i]) { assert s[1..][i] == s[i + 1]; } }
      DashRunsIdentity(s[1..]);
      assert s == [s[0]] + s[1..];
    }
  }

  predicate StartsWith(s: string, prefix: string)
  {
    |prefix| <= |s| && s[..|prefix|] == prefix
  }

  /** `t` occurs in `s` starting at position `k`. */
  predicate OccursAt(s: string, t: string, k: nat)
  {
    k + |t| <= |s| && s[k..k + |t|] == t
  }

  /** `s.includes(t)`: `t` occurs somewhere in `s`. */
  predicate Contains(s: string, t: string)
  {
    exists k: nat :: k <= |s| && OccursAt(s, t, k)
  }

  /** `t` occurs in `s` at position `k`. */
  lemma ContainsAt(s: string, t: string, k: nat)
    requires OccursAt(s, t, k)
    ensures Contains(s, t)
  {
  }

  /** `s` does not contain `t` when one of the characters of `t` never occurs in `s`. */
  lemma AbsentCharNotContained(s: string, t: string, j: nat)
    requires j < |t| && t[j] !in s
    ensures !Contains(s, t)
  {
    forall k: nat | k <= |s| ensures !OccursAt(s, t, k) {
      if k + |t| <= |s| {
        assert s[k..k + |t|][j] == s[k + j];
      }
    }
  }

  /** `ToLower(s)` is `t` when `t` lower-cases `s` character by character. */
  lemma LowerPointwise(s: string, t: string)
    requires |s| == |t| && forall i :: 0 <= i < |s| ==> LowerChar(s[i]) == t[i]
    ensures ToLower(s) == t
  {
  }

  /** `s.split(sep)` for a one-character separator. */
  function Split(s: string, sep: char): (parts: seq<string>)
    ensures |parts| >= 1
    ensures forall k :: 0 <= k < |parts| ==> sep !in parts[k]
  {
    if s == [] then [""]
    else
      var rest := Split(s[1..], sep);
      if s[0] == sep then [""] + rest
      else
        assert sep !in [s[0]] + rest[0];
        [[s[0]] + rest[0]] + rest[1..]
  }

  /** `parts.join(sep)`. */
  function Join(parts: seq<string>, sep: string): string
  {
    if |parts| == 0 then "" else if |parts| == 1 then parts[0] else parts[0] + sep + Join(parts[1..], sep)
  }

  /** Joining the pieces of a split with the same separator gives back the string. */
  lemma {:induction false} JoinSplit(s: string, sep: char)
    ensures Join(Split(s, sep), [sep]) == s
  {
    if s != [] {
      var rest := Split(s[1..], sep);
      JoinSplit(s[1..], sep);
      if s[0] == sep {
        assert Split(s, sep) == [""] + rest;
        assert (["" ] + rest)[1..] == rest;
      } else {
        var parts := Split(s, sep);
        assert parts == [[s[0]] + rest[0]] + rest[1..];
        if |rest| == 1 {
          assert parts == [[s[0]] + rest[0]];
        } else {
          assert parts[1..] == rest[1..];
          assert Join(rest, [sep]) == rest[0] + [sep] + Join(rest[1..], [sep]);
        }
      }
    }
  }

  /** Splitting a string that starts with the separator starts with an empty piece. */
  lemma SplitSepFirst(t: string, sep: char)
    ensures Split([sep] + t, sep) == [""] + Split(t, sep)
  {
    assert ([sep] + t)[1..] == t;
  }

  /** Splitting a string that starts with another character puts it in front of the first piece. */
  lemma SplitOtherFirst(c: char, t: string, sep: char)
    requires c != sep
    ensures Split([c] + t, sep) == [[c] + Split(t, sep)[0]] + Split(t, sep)[1..]
  {
    assert ([c] + t)[1..] == t;
  }

  /** Joining pieces whose first one is non-empty starts with that piece's first character. */
  lemma JoinFirstChar(parts: seq<string>, sep: string)
    requires |parts| >= 1 && parts[0] != []
    ensures Join(parts, sep) == [parts[0][0]] + Join([parts[0][1..]] + parts[1..], sep)
  {
    var p := parts[0];
    var shorter := [p[1..]] + parts[1..];
    assert shorter[0] == p[1..] && shorter[1..] == parts[1..];
    assert p == [p[0]] + p[1..];
  }

  /** Splitting pieces that do not contain the separator recovers the pieces. */
  lemma {:induction false} SplitJoin(parts: seq<string>, sep: char)
    requires |parts| >= 1
    requires forall k :: 0 <= k < |parts| ==> sep !in parts[k]
    ensures Split(Join(parts, [sep]), sep) == parts
    decreases |parts|, |parts[0]|
  {
    var p := parts[0];
    if p == [] {
      if |parts| > 1 {
        SplitJoin(parts[1..], sep);
        assert Join(parts, [sep]) == [sep] + Join(parts[1..], [sep]);
        SplitSepFirst(Join(parts[1..], [sep]), sep);
        assert parts == [""] + parts[1..];
      }
    } else {
      var shorter := [p[1..]] + parts[1..];
      assert sep !in shorter[0];
      SplitJoin(shorter, sep);
      JoinFirstChar(parts, [sep]);
      assert p[0] != sep;
      SplitOtherFirst(p[0], Join(shorter, [sep]), sep);
      assert [p[0]] + p[1..] == p;
    }
  }

  function DigitChar(d: nat): char
    requires d < 16
  {
    if d < 10 then ('0' as int + d) as char else ('a' as int + d - 10) as char
  }

  /** The value of `c` as a digit in `base` (10 or 16), if it is one. */
  function DigitValue(c: char, base: nat): Option<nat>
  {
    if '0' <= c <= '9' && (c as int - '0' as int) < base then Some(c as int - '0' as int)
    else if base == 16 && 'a' <= c <= 'f' then Some(c as int - 'a' as int + 10)
    else if base == 16 && 'A' <= c <= 'F' then Some(c as int - 'A' as int + 10)
    else None
  }

  predicate IsDigit(c: char)
  {
    '0' <= c <= '9'
  }

  /** The decimal text of a natural number, as `String(n)` writes it. */
  function NatText(n: nat): (r: string)
    ensures |r| >= 1
    ensures forall i :: 0 <= i < |r| ==> IsDigit(r[i])
    ensures r[0] == '0' ==> n == 0
  {
    if n < 10 then [DigitChar(n)] else NatText(n / 10) + [DigitChar(n % 10)]
  }

  /** The decimal text of an integer, as a template literal writes it. */
  function IntText(n: int): string
  {
    if n < 0 then "-" + NatText(-n) else NatText(n)
  }

  function Pow10(k: nat): (r: nat)
    ensures r >= 1
  {
    if k == 0 then 1 else 10 * Pow10(k - 1)
  }

  /** The decimal text of `n` has exactly `k >= 2` digits iff 10^(k-1) <= n < 10^k. */
  lemma {:induction false} NatTextLength(n: nat, k: nat)
    requires k >= 2
    ensures |NatText(n)| == k <==> Pow10(k - 1) <= n < Pow10(k)
    decreases k
  {
    var q := n / 10;
    assert n == 10 * q + n % 10;
    if n >= 10 {
      assert |NatText(n)| == |NatText(q)| + 1;
      if k == 2 {
        assert |NatText(q)| == 1 <==> q < 10;
      } else {
        NatTextLength(q, k - 1);
        assert Pow10(k - 2) <= q <==> Pow10(k - 1) <= n;
        assert q < Pow10(k - 1) <==> n < Pow10(k);
      }
    } else {
      assert Pow10(k - 1) >= 10 by { PowAtLeastTen(k - 1); }
    }
  }

  lemma {:induction false} PowAtLeastTen(k: nat)
    requires k >= 1
    ensures Pow10(k) >= 10
  {
    if k > 1 { PowAtLeastTen(k - 1); }
  }

  /** The first character of the decimal text of `n` is its leading digit `d`, for `n` in
      [d * 10^k, (d + 1) * 10^k). */
  lemma {:induction false} NatTextLeading(n: nat, k: nat, d: nat)
    requires 1 <= d <= 9
    requires Pow10(k) * d <= n < Pow10(k) * (d + 1)
    ensures NatText(n)[0] == DigitChar(d)
    decreases k
  {
    if k == 0 {
      assert n == d;
    } else {
      var q := n / 10;
      var p := Pow10(k - 1);
      assert p * d <= q < p * (d + 1) && n >= 10 by {
        assert Pow10(k) * d == 10 * (p * d) && Pow10(k) * (d + 1) == 10 * (p * (d + 1));
        DivTenBounds(n, p * d, p * (d + 1));
      }
      NatTextLeading(q, k - 1, d);
      assert NatText(n) == NatText(q) + [DigitChar(n % 10)];
    }
  }

  lemma DivTenBounds(n: nat, a: nat, b: nat)
    requires 10 * a <= n < 10 * b
    ensures a <= n / 10 < b
  {
  }

  /** `String(v)`: how a request value reads when a regular expression tests it. */
  function JsString(v: JsValue): string
  {
    match v
    case Undefined => "undefined"
    case Null => "null"
    case Bool(b) => if b then "true" else "false"
    case Num(n) => IntText(n)
    case Str(s) => s
    case Object => "[object Object]"
  }

  /** The longest prefix of `s` made of digits of `base`. */
  function DigitPrefix(s: string, base: nat): (r: string)
    ensures |r| <= |s| && r == s[..|r|]
    ensures forall i :: 0 <= i < |r| ==> DigitValue(r[i], base).Some?
  {
    if s != [] && DigitValue(s[0], base).Some? then [s[0]] + DigitPrefix(s[1..], base) else []
  }

  /** The number written by the digits `ds` in `base`. */
  function DigitsValue(ds: string, base: nat): nat
    requires forall i :: 0 <= i < |ds| ==> DigitValue(ds[i], base).Some?
  {
    if ds == [] then 0 else DigitsValue(ds[..|ds| - 1], base) * base + DigitValue(ds[|ds| - 1], base).value
  }

  /** The global `parseInt(s)` without a radix: leading white space, an optional sign, an optional
      "0x"/"0X" prefix selecting base 16, then the longest run of digits. `None` stands for NaN. */
  function ParseInt(s: string): Option<int>
  {
    var t := TrimStart(s);
    var sign := if t != [] && t[0] == '-' then -1 else 1;
    var u := if t != [] && (t[0] == '-' || t[0] == '+') then t[1..] else t;
    var hex := |u| >= 2 && u[0] == '0' && (u[1] == 'x' || u[1] == 'X');
    var base := if hex then 16 else 10;
    var ds := DigitPrefix(if hex then u[2..] else u, base);
    if ds == [] then None else Some(sign * DigitsValue(ds, base))
  }

  /** `parseInt(s) || d`: NaN and zero both fall back to the default. */
  function OrDefault(p: Option<int>, d: int): (r: int)
    ensures r == d || (p.Some? && r == p.value && r != 0)
    ensures d != 0 ==> r != 0
  {
    if p.Some? && p.value != 0 then p.value else d
  }

  lemma {:induction false} DigitsValueOfNatText(n: nat)
    ensures DigitsValue(NatText(n), 10) == n
  {
    var r := NatText(n);
    if n >= 10 {
      DigitsValueOfNatText(n / 10);
      assert r[..|r| - 1] == NatText(n / 10);
    }
  }

  lemma {:induction false} DigitPrefixAll(s: string, base: nat)
    requires forall i :: 0 <= i < |s| ==> DigitValue(s[i], base).Some?
    ensures DigitPrefix(s, base) == s
  {
    if s != [] {
      DigitPrefixAll(s[1..], base);
      assert s == [s[0]] + s[1..];
    }
  }

  lemma NatTextParses(m: nat)
    ensures var u := NatText(m); !(|u| >= 2 && u[0] == '0' && (u[1] == 'x' || u[1] == 'X'))
    ensures DigitPrefix(NatText(m), 10) == NatText(m)
    ensures DigitsValue(NatText(m), 10) == m
  {
    var u := NatText(m);
    assert forall i :: 0 <= i < |u| ==> DigitValue(u[i], 10).Some?;
    DigitPrefixAll(u, 10);
    DigitsValueOfNatText(m);
  }

  lemma ParseNatText(u: string, m: nat)
    requires u == NatText(m)
    ensures ParseInt(u) == Some(m)
  {
    NatTextParses(m);
    assert IsDigit(u[0]) && !IsSpace(u[0]);
    assert TrimStart(u) == u;
  }

  lemma ParseNegatedNatText(u: string, m: nat)
    requires u == NatText(m)
    ensures ParseInt("-" + u) == Some(-(m as int))
  {
    NatTextParses(m);
    var s := "-" + u;
    assert s[0] == '-' && s[1..] == u;
    assert !IsSpace(s[0]);
    assert TrimStart(s) == s;
    NegatedParse(s);
  }

  /** `parseInt` on text that starts with a minus sign and no hexadecimal prefix. */
  lemma NegatedParse(t: string)
    requires t != [] && t[0] == '-' && TrimStart(t) == t
    requires !(|t[1..]| >= 2 && t[1..][0] == '0' && (t[1..][1] == 'x' || t[1..][1] == 'X'))
    ensures var ds := DigitPrefix(t[1..], 10);
      ParseInt(t) == if ds == [] then None else Some(-1 * DigitsValue(ds, 10))
  {
  }

  lemma ParseIntUnsigned(m: nat)
    ensures ParseInt(IntText(m)) == Some(m)
  {
    ParseNatText(NatText(m), m);
  }

  lemma ParseIntNegative(m: nat)
    requires m > 0
    ensures ParseInt(IntText(-(m as int))) == Some(-(m as int))
  {
    ParseNegatedNatText(NatText(m), m);
  }

  /** `parseInt` reads back the decimal text of every integer. */
  lemma IntTextRoundTrip(n: int)
    ensures ParseInt(IntText(n)) == Some(n)
  {
    if n < 0 {
      ParseIntNegative(-n);
    } else {
      ParseIntUnsigned(n);
    }
  }

  // ---------------------------------------------------------------------------------------------
  // String length

  /** Whether a character lies outside the Basic Multilingual Plane, so that UTF-16 stores it
      as a surrogate pair. */
  predicate Astral(c: char)
  {
    c as int >= 0x1_0000
  }

  /** `String.prototype.length` and Mongoose's `minlength`/`maxlength`: the number of UTF-16 code
      units, two for each astral character and one for every other. */
  function Utf16Length(s: string): (n: nat)
    ensures |s| <= n <= 2 * |s|
  {
    if s == [] then 0 else (if Astral(s[0]) then 2 else 1) + Utf16Length(s[1..])
  }

  /** The length of a concatenation is the sum of the lengths. */
  lemma {:induction false} Utf16LengthConcat(a: string, b: string)
    ensures Utf16Length(a + b) == Utf16Length(a) + Utf16Length(b)
  {
    if a != [] {
      assert (a + b)[0] == a[0] && (a + b)[1..] == a[1..] + b;
      Utf16LengthConcat(a[1..], b);
    } else {
      assert a + b == b;
    }
  }

  /** The UTF-16 length equals the number of characters exactly when no character is astral. */
  lemma {:induction false} Utf16LengthBmp(s: string)
    ensures Utf16Length(s) == |s| <==> forall k :: 0 <= k < |s| ==> !Astral(s[k])
  {
    if s != [] {
      Utf16LengthBmp(s[1..]);
      assert forall k :: 1 <= k < |s| ==> s[k] == s[1..][k - 1];
    }
  }
}
