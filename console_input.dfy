/**
 * The decisions the console makes on one line of customer input: the digit
 * tests on menu choices and quantities, the name check, and the two payment
 * prompts. Python's `str.isdigit`, `int`, `str`, `strip`, `upper` and `lower`
 * are written out for the characters they act on here.
 */
module ConsoleInput {
  import opened Wrappers

  /** `s.isdigit()` for ASCII digits: non-empty and every character in '0'..'9'. */
  predicate IsDigits(s: string)
  {
    |s| > 0 && forall i :: 0 <= i < |s| ==> '0' <= s[i] <= '9'
  }

  function DigitValue(ch: char): nat
  {
    if '0' <= ch <= '9' then (ch as int) - ('0' as int) else 0
  }

  /** `int(s)` for a digit string (leading zeros allowed, as Python allows them). */
  function Value(s: string): nat
  {
    if s == [] then 0 else Value(s[..|s| - 1]) * 10 + DigitValue(s[|s| - 1])
  }

  function DigitChar(d: nat): char
    requires d < 10
  {
    (('0' as int) + d) as char
  }

  /** `str(n)`: the decimal spelling of `n`. */
  function Str(n: nat): string
  {
    if n < 10 then [DigitChar(n)] else Str(n / 10) + [DigitChar(n % 10)]
  }

  /** A digit string without a leading zero (the only spelling `str` produces). */
  predicate Canonical(s: string)
  {
    IsDigits(s) && (|s| == 1 || s[0] != '0')
  }

  /** `int(str(n)) == n`, and `str(n)` is a canonical digit string. */
  lemma {:induction false} StrRoundTrip(n: nat)
    ensures Canonical(Str(n)) && Value(Str(n)) == n
  {
    if n >= 10 {
      StrRoundTrip(n / 10);
      var s := Str(n);
      assert s[..|s| - 1] == Str(n / 10);
    }
  }

  /** A digit string that does not start with '0' and has two or more digits is worth at least 10. */
  lemma {:induction false} CanonicalValueBound(s: string)
    requires IsDigits(s) && |s| >= 2 && s[0] != '0'
    ensures Value(s) >= 10
    decreases |s|
  {
    var p := s[..|s| - 1];
    if |p| >= 2 {
      CanonicalValueBound(p);
    } else {
      assert p == [s[0]];
      assert Value(p) == DigitValue(s[0]) >= 1;
    }
  }

  /** `str(int(s)) == s` for every canonical digit string: the two spellings agree. */
  lemma {:induction false} CanonicalRoundTrip(s: string)
    requires Canonical(s)
    ensures Str(Value(s)) == s
    decreases |s|
  {
    if |s| >= 2 {
      var p := s[..|s| - 1];
      assert Canonical(p);
      CanonicalRoundTrip(p);
      CanonicalValueBound(s);
      var d := DigitValue(s[|s| - 1]);
      assert Value(s) / 10 == Value(p) && Value(s) % 10 == d;
      assert DigitChar(d) == s[|s| - 1];
      assert s == p + [s[|s| - 1]];
    } else {
      assert s == [DigitChar(DigitValue(s[0]))];
    }
  }

  /** The menu test `choice.isdigit() and 1 <= int(choice) <= index`; entry `index` is "Done". */
  predicate ValidChoice(choice: string, index: nat)
  {
    IsDigits(choice) && 1 <= Value(choice) <= index
  }

  /** The quantity test `qty.isdigit() and 1 <= int(qty) <= max_qty`. */
  predicate ValidQuantity(qty: string, maxQty: int)
  {
    IsDigits(qty) && 1 <= Value(qty) <= maxQty
  }

  /** The menu prints the numbers `str(1)` .. `str(index)`: exactly those numbers are accepted choices. */
  lemma ValidChoiceNumerals(n: nat, index: nat)
    ensures ValidChoice(Str(n), index) <==> 1 <= n <= index
  {
    StrRoundTrip(n);
  }

  /** A quantity typed as `str(n)` is accepted exactly when `1 <= n <= max_qty`. */
  lemma ValidQuantityNumerals(n: nat, maxQty: int)
    ensures ValidQuantity(Str(n), maxQty) <==> 1 <= n <= maxQty
  {
    StrRoundTrip(n);
  }

  /** As the console is written: a valid choice means "Done" only when it is spelled `str(index)`. */
  predicate ChoosesDoneAsWritten(choice: string, index: nat)
  {
    choice == Str(index)
  }

  /** Corrected: a valid choice means "Done" when its value is `index`. */
  predicate ChoosesDone(choice: string, index: nat)
  {
    Value(choice) == index
  }

  /**
   * On a one-item menu ("Done" is entry 2) the reply "02" passes the digit
   * and range test but is not spelled "2", so the console looks it up as item
   * 2 of a one-entry numbering: the lookup raises KeyError.
   */
  lemma LeadingZeroMissesDone()
    ensures ValidChoice("02", 2) && !ChoosesDoneAsWritten("02", 2)
    ensures Value("02") == 2 && !(1 <= Value("02") <= 2 - 1)
  {
    assert Value("02") == Value("0") * 10 + 2;
    assert Str(2) == ['2'];
    assert "02" != ['2'];
  }

  /**
   * With the corrected test every valid choice that is not "Done" numbers an
   * item (1 .. index - 1), and "Done" covers every spelling the original
   * accepted, plus those with leading zeros.
   */
  lemma ChoiceLookupInRange(choice: string, index: nat)
    requires ValidChoice(choice, index)
    ensures !ChoosesDone(choice, index) ==> 1 <= Value(choice) <= index - 1
    ensures ChoosesDoneAsWritten(choice, index) <==> ChoosesDone(choice, index) && Canonical(choice)
  {
    if ChoosesDoneAsWritten(choice, index) {
      StrRoundTrip(index);
    }
    if ChoosesDone(choice, index) && Canonical(choice) {
      CanonicalRoundTrip(choice);
    }
  }

  /** Python's `str.isspace()` characters, the ones `strip()` removes. */
  predicate IsSpace(ch: char)
  {
    if ch <= ' ' then
      ch == ' ' || '\t' <= ch <= '\r' || '\U{1C}' <= ch <= '\U{1F}'
    else if ch < '\U{85}' then
      false
    else
      ch == '\U{85}' || ch == '\U{A0}' || ch == '\U{1680}' || '\U{2000}' <= ch <= '\U{200A}'
      || ch == '\U{2028}' || ch == '\U{2029}' || ch == '\U{202F}' || ch == '\U{205F}' || ch == '\U{3000}'
  }

  /** `s.lstrip()`: a suffix of the input that does not start with whitespace. */
  function TrimStart(s: string): (r: string)
    ensures |r| <= |s| && r == s[|s| - |r|..]
    ensures r == [] || !IsSpace(r[0])
  {
    if s != [] && IsSpace(s[0]) then TrimStart(s[1..]) else s
  }

  /** `s.rstrip()`: a prefix of the input that does not end with whitespace. */
  function TrimEnd(s: string): (r: string)
    ensures |r| <= |s| && r == s[..|r|]
    ensures r == [] || !IsSpace(r[|r| - 1])
  {
    if s != [] && IsSpace(s[|s| - 1]) then TrimEnd(s[..|s| - 1]) else s
  }

  /** `lstrip` drops whitespace and nothing else. */
  lemma {:induction false} TrimStartDropsSpaces(s: string)
    ensures forall i :: 0 <= i < |s| - |TrimStart(s)| ==> IsSpace(s[i])
  {
    if s != [] && IsSpace(s[0]) {
      TrimStartDropsSpaces(s[1..]);
      forall i | 0 <= i < |s| - |TrimStart(s)| ensures IsSpace(s[i]) {
        if i > 0 {
          assert s[i] == s[1..][i - 1];
        }
      }
    }
  }

  /** `rstrip` drops whitespace and nothing else. */
  lemma {:induction false} TrimEndDropsSpaces(s: string)
    ensures forall i :: |TrimEnd(s)| <= i < |s| ==> IsSpace(s[i])
  {
    if s != [] && IsSpace(s[|s| - 1]) {
      var init := s[..|s| - 1];
      TrimEndDropsSpaces(init);
      forall i | |TrimEnd(s)| <= i < |s| ensures IsSpace(s[i]) {
        if i < |s| - 1 {
          assert s[i] == init[i];
        }
      }
    }
  }

  /** `s.strip()`: whitespace is dropped from both ends until neither end is whitespace. */
  function Strip(s: string): string
    decreases |s|
  {
    if s != [] && IsSpace(s[0]) then Strip(s[1..])
    else if s != [] && IsSpace(s[|s| - 1]) then Strip(s[..|s| - 1])
    else s
  }

  /** Stripping is `lstrip` followed by `rstrip`. */
  lemma {:induction false} StripTrims(s: string)
    ensures Strip(s) == TrimEnd(TrimStart(s))
    decreases |s|
  {
    if s != [] && IsSpace(s[0]) {
      StripTrims(s[1..]);
    } else if s != [] && IsSpace(s[|s| - 1]) {
      var init := s[..|s| - 1];
      StripTrims(init);
      assert init != [] && init[0] == s[0];
      assert TrimStart(init) == init && TrimStart(s) == s;
    }
  }

  /** Taking `n` characters of the suffix from `i` is slicing from `i` to `i + n`. */
  lemma PrefixOfSuffix(s: string, i: int, n: int)
    requires 0 <= i <= |s| && 0 <= n <= |s| - i
    ensures s[i..][..n] == s[i..i + n]
  {
  }

  /** Whitespace at the end of a suffix `t` of `s` is whitespace at the same place in `s`. */
  lemma SpacesAfter(s: string, t: string, i: int, n: int)
    requires 0 <= i <= |s| && t == s[i..] && 0 <= n <= |t|
    requires forall j :: n <= j < |t| ==> IsSpace(t[j])
    ensures forall k :: i + n <= k < |s| ==> IsSpace(s[k])
  {
    forall k | i + n <= k < |s| ensures IsSpace(s[k]) {
      assert s[k] == t[k - i];
    }
  }

  /** A stripped string neither starts nor ends with whitespace. */
  lemma StripEnds(s: string)
    ensures Strip(s) == [] || (!IsSpace(Strip(s)[0]) && !IsSpace(Strip(s)[|Strip(s)| - 1]))
  {
    StripTrims(s);
    var t := TrimStart(s);
    var r := TrimEnd(t);
    assert r == t[..|r|];
  }

  /** A string that neither starts nor ends with whitespace is its own strip. */
  lemma StrippedIsFixed(u: string)
    requires u == [] || (!IsSpace(u[0]) && !IsSpace(u[|u| - 1]))
    ensures Strip(u) == u
  {
  }

  /** A digit string has nothing to strip. */
  lemma StripDigits(s: string)
    requires IsDigits(s)
    ensures Strip(s) == s
  {
    StrippedIsFixed(s);
  }

  /** A blank before a digit string is stripped away. */
  lemma StripLeadingBlank(s: string)
    requires IsDigits(s)
    ensures Strip([' '] + s) == s
  {
    var t := [' '] + s;
    assert t[1..] == s && IsSpace(t[0]);
    StripDigits(s);
  }

  /** A blank after a digit string is stripped away. */
  lemma StripTrailingBlank(s: string)
    requires IsDigits(s)
    ensures Strip(s + [' ']) == s
  {
    var t := s + [' '];
    assert !IsSpace(t[0]);
    assert t[..|t| - 1] == s && IsSpace(t[|t| - 1]);
    StripDigits(s);
  }

  /** The digit replies "1", "2" and "3" have nothing to strip. */
  lemma DigitRepliesUnchanged()
    ensures Strip("1") == "1" && Strip("2") == "2" && Strip("3") == "3"
  {
    assert IsDigits("1") && IsDigits("2") && IsDigits("3");
    StripDigits("1");
    StripDigits("2");
    StripDigits("3");
  }

  /** The reply " 1" strips to "1". */
  lemma BlankBeforeOne()
    ensures Strip(" 1") == "1"
  {
    assert [' '] + "1" == " 1";
    StripLeadingBlank("1");
  }

  /** The reply "3 " strips to "3". */
  lemma BlankAfterThree()
    ensures Strip("3 ") == "3"
  {
    assert "3" + [' '] == "3 ";
    StripTrailingBlank("3");
  }

  /** `rstrip` after `lstrip` keeps the slice of the input that starts where `lstrip` stopped. */
  lemma TrimsSlice(s: string)
    ensures var t := TrimStart(s); var r := TrimEnd(t); var i := |s| - |t|;
      i + |r| <= |s| && r == s[i..i + |r|]
  {
    var t := TrimStart(s);
    var r := TrimEnd(t);
    var i := |s| - |t|;
    PrefixOfSuffix(s, i, |r|);
    calc {
      r;
      t[..|r|];
      s[i..][..|r|];
      s[i..i + |r|];
    }
  }

  /** The stripped string is the slice of the input that starts where `lstrip` stopped. */
  lemma StripIsSlice(s: string)
    ensures var i := |s| - |TrimStart(s)|;
      i + |Strip(s)| <= |s| && Strip(s) == s[i..i + |Strip(s)|]
  {
    StripTrims(s);
    TrimsSlice(s);
  }

  /** Everything outside that slice is whitespace. */
  lemma StripDropsSpaces(s: string)
    ensures var i := |s| - |TrimStart(s)|;
      && (forall k :: 0 <= k < i ==> IsSpace(s[k]))
      && (forall k :: i + |Strip(s)| <= k < |s| ==> IsSpace(s[k]))
  {
    StripTrims(s);
    var t := TrimStart(s);
    TrimStartDropsSpaces(s);
    TrimEndDropsSpaces(t);
    SpacesAfter(s, t, |s| - |t|, |TrimEnd(t)|);
  }

  /** Stripping keeps a contiguous part of the input, bounded by non-space characters. */
  lemma StripShape(s: string)
    ensures Strip(s) == [] || (!IsSpace(Strip(s)[0]) && !IsSpace(Strip(s)[|Strip(s)| - 1]))
    ensures var i := |s| - |TrimStart(s)|;
      && i + |Strip(s)| <= |s| && Strip(s) == s[i..i + |Strip(s)|]
      && (forall k :: 0 <= k < i ==> IsSpace(s[k]))
      && (forall k :: i + |Strip(s)| <= k < |s| ==> IsSpace(s[k]))
  {
    StripEnds(s);
    StripIsSlice(s);
    StripDropsSpaces(s);
  }

  /** Stripping a stripped string changes nothing. */
  lemma StripIdempotent(s: string)
    ensures Strip(Strip(s)) == Strip(s)
  {
    StripEnds(s);
    StrippedIsFixed(Strip(s));
  }

  function UpperChar(ch: char): char
  {
    if 'a' <= ch <= 'z' then ((ch as int) - 32) as char else ch
  }

  function LowerChar(ch: char): char
  {
    if 'A' <= ch <= 'Z' then ((ch as int) + 32) as char else ch
  }

  /** `s.upper()` on ASCII letters. */
  function Upper(s: string): (r: string)
    ensures |r| == |s|
  {
    seq(|s|, i requires 0 <= i < |s| => UpperChar(s[i]))
  }

  /** `s.lower()` on ASCII letters. */
  function Lower(s: string): (r: string)
    ensures |r| == |s|
  {
    seq(|s|, i requires 0 <= i < |s| => LowerChar(s[i]))
  }

  /** `input(...).strip().upper()`: the customer name as it is stored. */
  function NormalizeName(raw: string): string
  {
    Upper(Strip(raw))
  }

  /** `re.match("^[A-Za-z ]+$", name)` on the normalized name. */
  predicate NameAccepted(raw: string)
  {
    var name := NormalizeName(raw);
    |name| > 0 && forall i :: 0 <= i < |name| ==> 'A' <= name[i] <= 'Z' || 'a' <= name[i] <= 'z' || name[i] == ' '
  }

  /** Upper-casing neither makes nor removes whitespace. */
  lemma UpperCharSpace(ch: char)
    ensures IsSpace(UpperChar(ch)) <==> IsSpace(ch)
  {
  }

  /** An upper-cased string has no lower-case ASCII letter left. */
  lemma UpperHasNoLower(s: string)
    ensures forall i :: 0 <= i < |s| ==> !('a' <= Upper(s)[i] <= 'z')
  {
  }

  /** Upper-casing twice is upper-casing once. */
  lemma UpperTwice(s: string)
    ensures Upper(Upper(s)) == Upper(s)
  {
  }

  /**
   * An accepted name is made of upper-case letters and spaces only, and starts
   * and ends with a letter.
   */
  lemma NameAcceptedShape(raw: string)
    requires NameAccepted(raw)
    ensures var name := NormalizeName(raw);
      && (forall i :: 0 <= i < |name| ==> 'A' <= name[i] <= 'Z' || name[i] == ' ')
      && 'A' <= name[0] <= 'Z' && 'A' <= name[|name| - 1] <= 'Z'
  {
    var s := Strip(raw);
    StripEnds(raw);
    UpperHasNoLower(s);
    UpperCharSpace(s[0]);
    UpperCharSpace(s[|s| - 1]);
  }

  /** Normalizing a normalized name changes nothing. */
  lemma NormalizeIdempotent(raw: string)
    ensures NormalizeName(NormalizeName(raw)) == NormalizeName(raw)
  {
    var s := Strip(raw);
    StripEnds(raw);
    var u := Upper(s);
    if u != [] {
      assert u[0] == UpperChar(s[0]) && u[|u| - 1] == UpperChar(s[|s| - 1]);
      UpperCharSpace(s[0]);
      UpperCharSpace(s[|s| - 1]);
    }
    StrippedIsFixed(u);
    UpperTwice(u);
  }


  /** main.py's payment prompt: `strip().lower()` must give "card" or "cash". */
  function CardOrCash(raw: string): (r: Option<string>)
    ensures r.Some? ==> r.value == "card" || r.value == "cash"
  {
    var m := Lower(Strip(raw));
    if m == "card" || m == "cash" then Some(m) else None
  }

  /** kfc_management_system.py's payment prompt: "1" is card, "2" is cash, anything else is refused. */
  function PaymentChoice(raw: string): (r: Option<string>)
    ensures r.Some? ==> r.value == "card" || r.value == "cash"
  {
    var c := Strip(raw);
    if c == "1" then Some("card") else if c == "2" then Some("cash") else None
  }

  /** The numbered payment prompt grants "card" exactly for the reply 1 and "cash" exactly for 2. */
  lemma PaymentChoiceMeaning(raw: string)
    ensures PaymentChoice(raw) == Some("card") <==> Strip(raw) == "1"
    ensures PaymentChoice(raw) == Some("cash") <==> Strip(raw) == "2"
    ensures PaymentChoice(raw) == None <==> Strip(raw) != "1" && Strip(raw) != "2"
  {
  }

  /** Upper-casing commutes with `lstrip`, since it neither makes nor removes whitespace. */
  lemma {:induction false} TrimStartUpper(s: string)
    ensures TrimStart(Upper(s)) == Upper(TrimStart(s))
    decreases |s|
  {
    if s != [] {
      UpperCharSpace(s[0]);
      if IsSpace(s[0]) {
        assert Upper(s)[1..] == Upper(s[1..]);
        TrimStartUpper(s[1..]);
      }
    }
  }

  /** Upper-casing commutes with `rstrip`. */
  lemma {:induction false} TrimEndUpper(s: string)
    ensures TrimEnd(Upper(s)) == Upper(TrimEnd(s))
    decreases |s|
  {
    if s != [] {
      UpperCharSpace(s[|s| - 1]);
      if IsSpace(s[|s| - 1]) {
        assert Upper(s)[..|s| - 1] == Upper(s[..|s| - 1]);
        TrimEndUpper(s[..|s| - 1]);
      }
    }
  }

  /** The typed payment prompt ignores letter case: an upper-cased reply selects the same payment. */
  lemma CardOrCashIgnoresCase(raw: string)
    ensures CardOrCash(Upper(raw)) == CardOrCash(raw)
  {
    StripTrims(raw);
    StripTrims(Upper(raw));
    TrimStartUpper(raw);
    TrimEndUpper(TrimStart(raw));
    assert Strip(Upper(raw)) == Upper(Strip(raw));
    LowerUpper(Strip(raw));
  }

  /** Lower-casing forgets any upper-casing done before it. */
  lemma LowerUpper(s: string)
    ensures Lower(Upper(s)) == Lower(s)
  {
    forall i | 0 <= i < |s|
      ensures Lower(Upper(s))[i] == Lower(s)[i]
    {
      assert Upper(s)[i] == UpperChar(s[i]);
    }
  }

  /** The reply " Card" selects card payment. */
  lemma CardReplySelectsCard()
    ensures CardOrCash(" Card") == Some("card")
  {
    assert TrimStart(" Card") == "Card" by {
      assert " Card"[1..] == "Card";
      assert IsSpace(' ') && !IsSpace('C');
    }
    assert TrimEnd("Card") == "Card" by {
      assert !IsSpace('d');
    }
    var l := Lower("Card");
    assert l == "card" by {
      assert l[0] == 'c' && l[1] == 'a' && l[2] == 'r' && l[3] == 'd';
    }
  }
}
