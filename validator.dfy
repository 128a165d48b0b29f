/** The request validators shared by registration and login. */
module Validator {
  import opened Common
  import opened Text

  /** The strings `/^\S+@\S+\.\S+$/` accepts: no white space, an "@" with something before it,
      and after that a "." with something on each side. */
  predicate EmailShape(s: string)
  {
    NoSpace(s) && exists i, j :: 0 < i && i + 1 < j && j + 1 < |s| && s[i] == '@' && s[j] == '.'
  }

  /** The first position at or after `from` holding `c`. */
  function IndexFrom(s: string, c: char, from: nat): (r: Option<nat>)
    ensures r.Some? ==> from <= r.value < |s| && s[r.value] == c
    ensures r.Some? ==> forall k :: from <= k < r.value ==> s[k] != c
    ensures r.None? ==> forall k :: from <= k < |s| ==> s[k] != c
    decreases |s| - from
  {
    if from >= |s| then None else if s[from] == c then Some(from) else IndexFrom(s, c, from + 1)
  }

  /** `validateEmail`: takes the first "@" after the first character, then the first "." at least
      two places after it, and asks for a character after that "." */
  function ValidateEmail(s: string): (ok: bool)
    ensures ok <==> EmailShape(s)
  {
    EmailScan(s);
    NoSpace(s) &&
    match IndexFrom(s, '@', 1)
    case None => false
    case Some(i) =>
      match IndexFrom(s, '.', i + 2)
      case None => false
      case Some(j) => j + 1 < |s|
  }

  /** The earliest "@" and then the earliest "." leave the most room, so the scan finds a match
      whenever there is one. */
  lemma EmailScan(s: string)
    ensures (exists i, j :: 0 < i && i + 1 < j && j + 1 < |s| && s[i] == '@' && s[j] == '.') <==>
      match IndexFrom(s, '@', 1)
      case None => false
      case Some(i) => (match IndexFrom(s, '.', i + 2) case None => false case Some(j) => j + 1 < |s|)
  {
    if exists i, j :: 0 < i && i + 1 < j && j + 1 < |s| && s[i] == '@' && s[j] == '.' {
      var i, j :| 0 < i && i + 1 < j && j + 1 < |s| && s[i] == '@' && s[j] == '.';
      var a := IndexFrom(s, '@', 1);
      assert a.Some? && a.value <= i;
      var b := IndexFrom(s, '.', a.value + 2);
      assert b.Some? && b.value <= j;
    }
  }

  /** `validatePhone`: `/^[6-9]\d{9}$/`. */
  predicate ValidatePhone(s: string)
  {
    |s| == 10 && '6' <= s[0] <= '9' && forall i :: 1 <= i < 10 ==> IsDigit(s[i])
  }

  /** The accepted phone numbers are exactly the decimal texts of 6000000000 .. 9999999999. */
  lemma PhoneNumbers(n: nat)
    ensures ValidatePhone(NatText(n)) <==> 6000000000 <= n < 10000000000
  {
    NatTextLength(n, 10);
    assert Pow10(9) == 1000000000 && Pow10(10) == 10000000000;
    if 1000000000 <= n < 10000000000 {
      var d := n / 1000000000;
      assert 1 <= d <= 9;
      NatTextLeading(n, 9, d);
      assert NatText(n)[0] == DigitChar(d);
    }
  }

  /** `validatePassword`: a string of at least six UTF-16 code units. Any such value is truthy. */
  function ValidatePassword(v: JsValue): (ok: bool)
    ensures ok ==> Truthy(v)
    ensures ok <==> v.Str? && Utf16Length(v.s) >= 6
  {
    Truthy(v) && v.Str? && Utf16Length(v.s) >= 6
  }

  /** Length is counted as JavaScript counts it: two letters and two emoji make six code units,
      enough for a password, although the text has four characters. */
  lemma AstralPasswordAccepted()
    ensures var s := "ab\U{1F600}\U{1F600}"; |s| == 4 && ValidatePassword(Str(s))
  {
    var s := "ab\U{1F600}\U{1F600}";
    Utf16LengthConcat("ab", "\U{1F600}\U{1F600}");
    Utf16LengthConcat("\U{1F600}", "\U{1F600}");
    assert s == "ab" + "\U{1F600}\U{1F600}";
    assert "\U{1F600}\U{1F600}" == "\U{1F600}" + "\U{1F600}";
    assert Utf16Length("\U{1F600}") == 2 by {
      assert "\U{1F600}"[1..] == [];
    }
    assert Utf16Length("ab") == 2 by {
      assert "ab"[1..] == "b" && "b"[1..] == [];
    }
  }

  /** A value `validateRequired` reports: falsy, or a string of white space only. */
  predicate Blank(v: JsValue)
  {
    !Truthy(v) || (v.Str? && Trim(v.s) == [])
  }

  /** The keys of the blank fields, in input order. */
  function MissingKeys(fields: seq<(string, JsValue)>): (r: seq<string>)
    ensures |r| <= |fields|
  {
    if fields == [] then []
    else (if Blank(fields[0].1) then [fields[0].0] else []) + MissingKeys(fields[1..])
  }

  /** The keys missing from a list are those of its first field, if blank, then those of the rest. */
  lemma MissingKeysCons(f: (string, JsValue), rest: seq<(string, JsValue)>)
    ensures MissingKeys([f] + rest) == (if Blank(f.1) then [f.0] else []) + MissingKeys(rest)
  {
    assert ([f] + rest)[1..] == rest;
  }

  /** Nothing is missing exactly when every field is truthy and not white space only. */
  lemma {:induction false} NothingMissing(fields: seq<(string, JsValue)>)
    ensures MissingKeys(fields) == [] <==> forall i :: 0 <= i < |fields| ==> !Blank(fields[i].1)
  {
    if fields != [] {
      NothingMissing(fields[1..]);
      assert forall i :: 1 <= i < |fields| ==> fields[i] == fields[1..][i - 1];
    }
  }

  /** A key is reported iff some field under it is blank. */
  lemma {:induction false} MissingKeysExact(fields: seq<(string, JsValue)>, key: string)
    ensures key in MissingKeys(fields) <==> exists i :: 0 <= i < |fields| && fields[i].0 == key && Blank(fields[i].1)
  {
    if fields != [] {
      MissingKeysExact(fields[1..], key);
      assert forall i :: 1 <= i < |fields| ==> fields[i] == fields[1..][i - 1];
      if exists i :: 0 <= i < |fields| && fields[i].0 == key && Blank(fields[i].1) {
        var i :| 0 <= i < |fields| && fields[i].0 == key && Blank(fields[i].1);
        if i > 0 { assert fields[1..][i - 1] == fields[i]; }
      }
    }
  }

  /** `validateRequired`: walks the entries and pushes each blank one's key. */
  method ValidateRequired(fields: seq<(string, JsValue)>) returns (missing: seq<string>)
    ensures missing == MissingKeys(fields)
  {
    missing := [];
    var i := 0;
    while i < |fields|
      invariant 0 <= i <= |fields|
      invariant missing + MissingKeys(fields[i..]) == MissingKeys(fields)
    {
      assert fields[i..] == [fields[i]] + fields[i + 1..];
      if Blank(fields[i].1) {
        missing := missing + [fields[i].0];
      }
      i := i + 1;
    }
    assert fields[i..] == [];
  }
}
