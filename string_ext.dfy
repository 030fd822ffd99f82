/**
 * The string helpers of the app (its `String` extension) and the two
 * Foundation string operations the card reader relies on: removing every
 * occurrence of a character and splitting on a separator.
 *
 * Strings are sequences of `char`; a Swift `Character` (a grapheme cluster)
 * is taken to be one `char`.
 */
module StringExt {

  /** An ASCII decimal digit, the set `isNumeric` accepts. */
  predicate IsDigit(c: char) {
    '0' <= c <= '9'
  }

  /**
   * `isNumeric`: the string is non-empty and the set of its characters is a
   * subset of the ten ASCII digits.
   */
  function IsNumeric(s: string): (b: bool)
    ensures b <==> |s| > 0 && forall i :: 0 <= i < |s| ==> IsDigit(s[i])
    ensures b ==> ' ' !in s && '/' !in s
  {
    |s| > 0 && forall c | c in s :: IsDigit(c)
  }

  /**
   * `rangeOfCharacter(from: .decimalDigits) != nil`, with the decimal digits
   * taken to be the ASCII ones (see DigitGuardIsRedundant for why this does
   * not change any result).
   */
  function HasDecimalDigit(s: string): (b: bool)
    ensures b <==> exists i :: 0 <= i < |s| && IsDigit(s[i])
  {
    exists c | c in s :: IsDigit(c)
  }

  /**
   * Wherever the app tests "has a decimal digit" it also tests `isNumeric`.
   * For any notion of decimal digit that includes the ASCII ones, the
   * conjunction is just `isNumeric`, so the breadth of the platform's digit
   * set never matters.
   */
  lemma DigitGuardIsRedundant(s: string, isDecimal: char -> bool)
    requires forall c :: IsDigit(c) ==> isDecimal(c)
    ensures ((exists i :: 0 <= i < |s| && isDecimal(s[i])) && IsNumeric(s)) <==> IsNumeric(s)
  {
    if IsNumeric(s) {
      assert IsDigit(s[0]) && isDecimal(s[0]);
    }
  }

  /**
   * `replacingOccurrences(of: String(c), with: "")`: every occurrence of `c`
   * is removed and nothing else changes.
   */
  function RemoveAll(s: string, c: char): (r: string)
    ensures multiset(r) == multiset(s)[c := 0]
    ensures c !in r
    ensures |r| == |s| - multiset(s)[c]
    ensures c !in s ==> r == s
  {
    if s == [] then []
    else
      assert s == [s[0]] + s[1..];
      if s[0] == c then RemoveAll(s[1..], c)
      else [s[0]] + RemoveAll(s[1..], c)
  }

  /** Removing a character distributes over concatenation. */
  lemma {:induction false} RemoveAllConcat(a: string, b: string, c: char)
    ensures RemoveAll(a + b, c) == RemoveAll(a, c) + RemoveAll(b, c)
  {
    if a != [] {
      var ab := a + b;
      assert ab != [] && ab[0] == a[0] && ab[1..] == a[1..] + b;
      RemoveAllConcat(a[1..], b, c);
      if a[0] == c {
        assert RemoveAll(ab, c) == RemoveAll(a[1..] + b, c);
        assert RemoveAll(a, c) == RemoveAll(a[1..], c);
      } else {
        assert RemoveAll(ab, c) == [a[0]] + RemoveAll(a[1..] + b, c);
        assert RemoveAll(a, c) == [a[0]] + RemoveAll(a[1..], c);
      }
    } else {
      assert a + b == b;
    }
  }

  /** `withoutWhiteSpace`: only the space character U+0020 is removed. */
  function WithoutWhiteSpace(s: string): (r: string)
    ensures ' ' !in r
    ensures multiset(r) == multiset(s)[' ' := 0]
  {
    RemoveAll(s, ' ')
  }

  /**
   * `components(separatedBy: String(sep))`: the pieces between consecutive
   * separators, in order; the empty string gives one empty piece.
   */
  function Components(s: string, sep: char): (r: seq<string>)
    ensures |r| > 0
  {
    if s == [] then [[]]
    else
      var rest := Components(s[1..], sep);
      if s[0] == sep then [[]] + rest
      else [[s[0]] + rest[0]] + rest[1..]
  }

  /** One piece more than there are separators, and no piece holds one. */
  lemma {:induction false} ComponentsShape(s: string, sep: char)
    ensures |Components(s, sep)| == multiset(s)[sep] + 1
    ensures forall i :: 0 <= i < |Components(s, sep)| ==> sep !in Components(s, sep)[i]
  {
    if s != [] {
      ComponentsShape(s[1..], sep);
      assert s == [s[0]] + s[1..];
      var rest := Components(s[1..], sep);
      var r := Components(s, sep);
      if s[0] != sep {
        assert r[0] == [s[0]] + rest[0];
        forall i | 0 <= i < |r| ensures sep !in r[i] {
          if i > 0 {
            assert r[i] == rest[i];
          }
        }
      }
    }
  }

  /** The pieces joined back with the separator between them. */
  function Join(pieces: seq<string>, sep: char): string
    requires |pieces| > 0
  {
    if |pieces| == 1 then pieces[0]
    else pieces[0] + [sep] + Join(pieces[1..], sep)
  }

  /** Splitting loses nothing: joining the pieces gives the text back. */
  lemma {:induction false} JoinComponents(s: string, sep: char)
    ensures Join(Components(s, sep), sep) == s
  {
    if s != [] {
      var rest := Components(s[1..], sep);
      JoinComponents(s[1..], sep);
      assert s == [s[0]] + s[1..];
      if s[0] == sep {
        var r := [[]] + rest;
        assert Components(s, sep) == r;
        assert r[0] == [] && r[1..] == rest;
        assert Join(r, sep) == [] + [sep] + Join(rest, sep);
      } else {
        var r := [[s[0]] + rest[0]] + rest[1..];
        assert Components(s, sep) == r;
        if |rest| == 1 {
          assert Join(rest, sep) == rest[0];
        } else {
          assert r[0] == [s[0]] + rest[0] && r[1..] == rest[1..];
          assert Join(rest, sep) == rest[0] + [sep] + Join(rest[1..], sep);
          assert Join(r, sep) == [s[0]] + rest[0] + [sep] + Join(rest[1..], sep);
        }
      }
    }
  }

  /**
   * The display form the formatters build: each character in order, with
   * `sep` written after the character at every index listed in `gaps`.
   */
  function Readable(s: string, gaps: seq<int>, sep: string): string {
    if s == [] then []
    else Readable(s[..|s| - 1], gaps, sep) + [s[|s| - 1]] + (if |s| - 1 in gaps then sep else [])
  }

  /** Indexes after which `makeReadableCardNumber` writes a space. */
  const CardGaps: seq<int> := [3, 7, 11]
  /** Indexes after which `makeReadableExpireDateForCard` writes " / ". */
  const ExpireGaps: seq<int> := [1]

  function ReadableCardNumber(s: string): string {
    Readable(s, CardGaps, " ")
  }

  function ReadableExpireDate(s: string): string {
    Readable(s, ExpireGaps, " / ")
  }

  /** `makeReadableCardNumber`: the loop over the enumerated characters. */
  method MakeReadableCardNumber(s: string) returns (formatted: string)
    ensures formatted == ReadableCardNumber(s)
  {
    formatted := [];
    for index := 0 to |s|
      invariant formatted == ReadableCardNumber(s[..index])
    {
      assert s[..index + 1][..index] == s[..index];
      formatted := formatted + [s[index]];
      formatted := formatted + if index in CardGaps then " " else "";
    }
    assert s[..|s|] == s;
  }

  /** `makeReadableExpireDateForCard`: the loop over the enumerated characters. */
  method MakeReadableExpireDateForCard(s: string) returns (formatted: string)
    ensures formatted == ReadableExpireDate(s)
  {
    formatted := [];
    for index := 0 to |s|
      invariant formatted == ReadableExpireDate(s[..index])
    {
      assert s[..index + 1][..index] == s[..index];
      formatted := formatted + [s[index]];
      formatted := formatted + if index in ExpireGaps then " / " else "";
    }
    assert s[..|s|] == s;
  }

  /** Number of spaces `makeReadableCardNumber` writes for an input of length n. */
  function CardSeparatorsBefore(n: int): nat {
    (if n > 3 then 1 else 0) + (if n > 7 then 1 else 0) + (if n > 11 then 1 else 0)
  }

  lemma {:induction false} ReadableCardNumberLength(s: string)
    ensures |ReadableCardNumber(s)| == |s| + CardSeparatorsBefore(|s|)
  {
    if s != [] {
      ReadableCardNumberLength(s[..|s| - 1]);
    }
  }

  lemma {:induction false} ReadableExpireDateLength(s: string)
    ensures |ReadableExpireDate(s)| == |s| + (if |s| > 1 then 3 else 0)
  {
    if s != [] {
      ReadableExpireDateLength(s[..|s| - 1]);
    }
  }

  /**
   * The displayed card number of a space-free string has a space at index 4,
   * 9 and 14 (as far as it reaches) and nowhere else.
   */
  lemma {:induction false} CardSpacePositions(s: string)
    requires ' ' !in s
    ensures forall j :: 0 <= j < |ReadableCardNumber(s)| ==>
      (ReadableCardNumber(s)[j] == ' ' <==> j == 4 || j == 9 || j == 14)
  {
    if s != [] {
      var prefix := s[..|s| - 1];
      assert forall c :: c in prefix ==> c in s;
      CardSpacePositions(prefix);
      ReadableCardNumberLength(prefix);
      var t := ReadableCardNumber(s);
      var t' := ReadableCardNumber(prefix);
      assert s[|s| - 1] in s;
      forall j | 0 <= j < |t|
        ensures t[j] == ' ' <==> j == 4 || j == 9 || j == 14
      {
        if j < |t'| {
          assert t[j] == t'[j];
        }
      }
    }
  }

  /** Stripping the spaces from the displayed card number gives the number back. */
  lemma {:induction false} CardNumberRoundTrip(s: string)
    requires ' ' !in s
    ensures WithoutWhiteSpace(ReadableCardNumber(s)) == s
  {
    if s != [] {
      var prefix := s[..|s| - 1];
      var last := s[|s| - 1];
      assert s == prefix + [last];
      assert last in s;
      assert ' ' !in prefix by {
        assert forall c :: c in prefix ==> c in s;
      }
      var gap := |s| - 1 in CardGaps;
      assert ReadableCardNumber(s) == ReadableCardNumber(prefix) + [last] + (if gap then " " else []);
      CardNumberStep(prefix, last, gap);
      CardNumberRoundTrip(prefix);
    }
  }

  /** One step of the display loop, seen through the space removal. */
  lemma CardNumberStep(prefix: string, last: char, gap: bool)
    requires last != ' '
    ensures WithoutWhiteSpace(ReadableCardNumber(prefix) + [last] + (if gap then " " else []))
         == WithoutWhiteSpace(ReadableCardNumber(prefix)) + [last]
  {
    var t' := ReadableCardNumber(prefix);
    var sep: string := if gap then " " else [];
    RemoveAllConcat(t' + [last], sep, ' ');
    RemoveAllConcat(t', [last], ' ');
    assert RemoveAll([last], ' ') == [last];
    assert RemoveAll(sep, ' ') == [];
  }

  /** What the expiry field keeps of its text: no spaces and no '/'. */
  function NormalizeExpireDate(s: string): (r: string)
    ensures ' ' !in r && '/' !in r
    ensures multiset(r) == multiset(s)[' ' := 0]['/' := 0]
  {
    var w := WithoutWhiteSpace(s);
    var r := RemoveAll(w, '/');
    assert multiset(w)[' '] == 0 && multiset(r)[' '] == 0;
    r
  }

  lemma NormalizeExpireDateConcat(a: string, b: string)
    ensures NormalizeExpireDate(a + b) == NormalizeExpireDate(a) + NormalizeExpireDate(b)
  {
    RemoveAllConcat(a, b, ' ');
    RemoveAllConcat(RemoveAll(a, ' '), RemoveAll(b, ' '), '/');
  }

  /**
   * The expiry field's normalisation undoes the expiry display form of a
   * string without spaces or slashes.
   */
  lemma {:induction false} ExpireDateRoundTrip(s: string)
    requires ' ' !in s && '/' !in s
    ensures NormalizeExpireDate(ReadableExpireDate(s)) == s
  {
    if s != [] {
      var prefix := s[..|s| - 1];
      var last := s[|s| - 1];
      assert s == prefix + [last];
      assert last in s;
      assert ' ' !in prefix && '/' !in prefix by {
        assert forall c :: c in prefix ==> c in s;
      }
      var gap := |s| - 1 in ExpireGaps;
      assert ReadableExpireDate(s) == ReadableExpireDate(prefix) + [last] + (if gap then " / " else []);
      ExpireDateStep(prefix, last, gap);
      ExpireDateRoundTrip(prefix);
    }
  }

  /** One step of the display loop, seen through the normalisation. */
  lemma ExpireDateStep(prefix: string, last: char, gap: bool)
    requires last != ' ' && last != '/'
    ensures NormalizeExpireDate(ReadableExpireDate(prefix) + [last] + (if gap then " / " else []))
         == NormalizeExpireDate(ReadableExpireDate(prefix)) + [last]
  {
    var t' := ReadableExpireDate(prefix);
    var sep: string := if gap then " / " else [];
    NormalizeExpireDateConcat(t' + [last], sep);
    NormalizeExpireDateConcat(t', [last]);
    assert NormalizeExpireDate([last]) == [last];
    assert NormalizeExpireDate(sep) == [];
  }
}
