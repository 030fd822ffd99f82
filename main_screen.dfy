/**
 * The manual-entry screen (`MainViewController` with its `MainViewModel`):
 * two text fields whose edits are normalised, capped and stored in the view
 * model, the delegate rule that removes trailing characters when an edit
 * range covers a separator position, and the hand-over of a recognised card.
 *
 * The two `Dynamic("")` cells of the view model are kept as their stored
 * values (`number`, `expireDate`); the text fields as their text.
 */
module MainScreen {

  import opened StringExt

  const CardNumberFieldLimit := 16
  const ExpireDateFieldLimit := 4

  /** Positions whose deletion in the card field removes one trailing character. */
  const CardSeparatorPositions: seq<int> := [4, 9, 14]
  /** Positions whose deletion in the expiry field removes three trailing characters. */
  const ExpireSeparatorPositions: seq<int> := [4]
  const ExpireRemovalsPerHit := 3

  /** The two text fields the controller is delegate of. */
  datatype Field = CardNumberField | CardExpireDateField

  /** `NSRange`; `contains` is membership in [location, location + length). */
  datatype NSRange = NSRange(location: nat, length: nat) {
    predicate Contains(p: int) {
      location <= p < location + length
    }
  }

  /** How many of `positions` the range covers. */
  function HitCount(range: NSRange, positions: seq<int>): (k: nat)
    ensures k <= |positions|
    ensures k == 0 <==> forall i :: 0 <= i < |positions| ==> !range.Contains(positions[i])
  {
    if positions == [] then 0
    else HitCount(range, positions[..|positions| - 1]) + (if range.Contains(positions[|positions| - 1]) then 1 else 0)
  }

  /** Covering a prefix of the positions never counts more than covering them all. */
  lemma {:induction false} HitCountPrefix(range: NSRange, positions: seq<int>, i: nat)
    requires i <= |positions|
    ensures HitCount(range, positions[..i]) <= HitCount(range, positions)
  {
    if i < |positions| {
      HitCountPrefix(range, positions[..|positions| - 1], i);
      assert positions[..|positions| - 1][..i] == positions[..i];
    } else {
      assert positions[..i] == positions;
    }
  }

  /** Characters the delegate removes from the end of the field's text. */
  function Removals(field: Field, range: NSRange): nat {
    match field
    case CardNumberField => HitCount(range, CardSeparatorPositions)
    case CardExpireDateField => ExpireRemovalsPerHit * HitCount(range, ExpireSeparatorPositions)
  }

  /**
   * For an edit range that lies within the field's text, as the ranges the
   * text field delivers do, the text is long enough for every `removeLast`.
   */
  lemma RemovalsWithinText(field: Field, range: NSRange, n: nat)
    requires range.location + range.length <= n
    ensures Removals(field, range) <= n
  {
    var ps := if field == CardNumberField then CardSeparatorPositions else ExpireSeparatorPositions;
    if HitCount(range, ps) > 0 {
      var i :| 0 <= i < |ps| && range.Contains(ps[i]);
      assert ps[i] >= 4;
    }
  }

  /** `deleteBackward()` with the cursor at the end: the last character goes. */
  function DeleteBackward(text: string): (r: string)
    ensures text != [] ==> r + [text[|text| - 1]] == text
    ensures text == [] ==> r == []
  {
    if text == [] then [] else text[..|text| - 1]
  }

  /**
   * A backspace at the end of the displayed card number removes one extra
   * trailing character exactly when the character it deletes is a separator.
   */
  lemma CardBackspaceRemovesSeparator(n: string)
    requires ' ' !in n && n != []
    ensures var t := ReadableCardNumber(n);
      |t| > 0 &&
      (Removals(CardNumberField, NSRange(|t| - 1, 1)) == 1 <==> t[|t| - 1] == ' ') &&
      (Removals(CardNumberField, NSRange(|t| - 1, 1)) == 0 <==> t[|t| - 1] != ' ')
  {
    var t := ReadableCardNumber(n);
    ReadableCardNumberLength(n);
    CardSpacePositions(n);
    var r := NSRange(|t| - 1, 1);
    assert HitCount(r, CardSeparatorPositions) ==
      (if r.Contains(4) then 1 else 0) + (if r.Contains(9) then 1 else 0) + (if r.Contains(14) then 1 else 0) by {
      assert CardSeparatorPositions[..2] == [4, 9];
      assert CardSeparatorPositions[..2][..1] == [4];
      assert [4][..0] == [];
    }
  }

  /**
   * A backspace at the end of the displayed expiry removes three trailing
   * characters exactly when the text ends with the " / " separator, and those
   * three characters are that separator.
   */
  lemma ExpireBackspaceRemovesSeparator(e: string)
    requires ' ' !in e && '/' !in e && e != []
    ensures var t := ReadableExpireDate(e);
      |t| > 0 &&
      (Removals(CardExpireDateField, NSRange(|t| - 1, 1)) == 3 <==> |e| == 2) &&
      (Removals(CardExpireDateField, NSRange(|t| - 1, 1)) == 0 <==> |e| != 2) &&
      (|e| == 2 ==> t == e + " / ")
  {
    var t := ReadableExpireDate(e);
    ReadableExpireDateLength(e);
    var r := NSRange(|t| - 1, 1);
    assert ExpireSeparatorPositions[..0] == [];
    assert HitCount(r, ExpireSeparatorPositions) == if r.Contains(4) then 1 else 0;
    if |e| == 2 {
      assert e[..1][..0] == [];
      assert e[..1] == [e[0]];
      assert ReadableExpireDate(e[..1]) == [e[0]];
    }
  }

  class MainViewController {
    /** `viewModel.number.value` */
    var number: string
    /** `viewModel.expireDate.value` */
    var expireDate: string
    /** `cardNumberField.text` */
    var cardNumberText: string
    /** `cardExpireDate.text` */
    var cardExpireDateText: string

    /** The screen with a fresh view model (`Dynamic("")` twice) and empty fields. */
    constructor ()
      ensures number == "" && expireDate == ""
      ensures cardNumberText == "" && cardExpireDateText == ""
    {
      number, expireDate := "", "";
      cardNumberText, cardExpireDateText := "", "";
    }

    /**
     * `didChangeCardNumber`: a space-free text longer than 16 characters is
     * rejected by deleting one character and leaving the model alone;
     * otherwise it is stored and shown in display form.
     */
    method DidChangeCardNumber()
      modifies this
      ensures var card := WithoutWhiteSpace(old(cardNumberText));
        if |card| > CardNumberFieldLimit then
          cardNumberText == DeleteBackward(old(cardNumberText)) && number == old(number)
        else
          cardNumberText == ReadableCardNumber(card) && number == card
      ensures number == old(number) || (|number| <= CardNumberFieldLimit && ' ' !in number)
      ensures number != old(number) ==> WithoutWhiteSpace(cardNumberText) == number
      ensures expireDate == old(expireDate) && cardExpireDateText == old(cardExpireDateText)
    {
      var card := WithoutWhiteSpace(cardNumberText);
      if |card| > CardNumberFieldLimit {
        cardNumberText := DeleteBackward(cardNumberText);
        return;
      }
      cardNumberText := MakeReadableCardNumber(card);
      number := card;
      CardNumberRoundTrip(card);
    }

    /**
     * `didChangeCardExpireDate`: as for the card number, after removing
     * spaces and every '/', with a cap of 4 characters.
     */
    method DidChangeCardExpireDate()
      modifies this
      ensures var date := NormalizeExpireDate(old(cardExpireDateText));
        if |date| > ExpireDateFieldLimit then
          cardExpireDateText == DeleteBackward(old(cardExpireDateText)) && expireDate == old(expireDate)
        else
          cardExpireDateText == ReadableExpireDate(date) && expireDate == date
      ensures expireDate == old(expireDate) ||
        (|expireDate| <= ExpireDateFieldLimit && ' ' !in expireDate && '/' !in expireDate)
      ensures expireDate != old(expireDate) ==> NormalizeExpireDate(cardExpireDateText) == expireDate
      ensures number == old(number) && cardNumberText == old(cardNumberText)
    {
      var date := NormalizeExpireDate(cardExpireDateText);
      if |date| > ExpireDateFieldLimit {
        cardExpireDateText := DeleteBackward(cardExpireDateText);
        return;
      }
      cardExpireDateText := MakeReadableExpireDateForCard(date);
      expireDate := date;
      ExpireDateRoundTrip(date);
    }

    /** `didRecognizeCard(number:expireDate:)`: both values copied as they are. */
    method DidRecognizeCard(recognizedNumber: string, recognizedExpireDate: string)
      modifies this
      ensures number == recognizedNumber && expireDate == recognizedExpireDate
      ensures cardNumberText == ReadableCardNumber(recognizedNumber)
      ensures cardExpireDateText == ReadableExpireDate(recognizedExpireDate)
      ensures ' ' !in recognizedNumber ==> WithoutWhiteSpace(cardNumberText) == number
      ensures ' ' !in recognizedExpireDate && '/' !in recognizedExpireDate ==>
        NormalizeExpireDate(cardExpireDateText) == expireDate
    {
      number := recognizedNumber;
      expireDate := recognizedExpireDate;
      cardNumberText := MakeReadableCardNumber(recognizedNumber);
      cardExpireDateText := MakeReadableExpireDateForCard(recognizedExpireDate);
      if ' ' !in recognizedNumber {
        CardNumberRoundTrip(recognizedNumber);
      }
      if ' ' !in recognizedExpireDate && '/' !in recognizedExpireDate {
        ExpireDateRoundTrip(recognizedExpireDate);
      }
    }

    /**
     * `textField(_:shouldChangeCharactersIn:replacementString:)`: for each
     * watched position inside the edit range, remove trailing characters of
     * the edited field (`removeLast`, which needs a non-empty text); always
     * allow the edit.
     */
    method ShouldChangeCharacters(field: Field, range: NSRange, replacement: string) returns (allowed: bool)
      requires field == CardNumberField ==> |cardNumberText| >= Removals(field, range)
      requires field == CardExpireDateField ==> |cardExpireDateText| >= Removals(field, range)
      modifies this
      ensures allowed
      ensures field == CardNumberField ==>
        cardNumberText == old(cardNumberText)[..|old(cardNumberText)| - Removals(field, range)] &&
        cardExpireDateText == old(cardExpireDateText)
      ensures field == CardExpireDateField ==>
        cardExpireDateText == old(cardExpireDateText)[..|old(cardExpireDateText)| - Removals(field, range)] &&
        cardNumberText == old(cardNumberText)
      ensures number == old(number) && expireDate == old(expireDate)
    {
      if field == CardNumberField {
        for i := 0 to |CardSeparatorPositions|
          invariant HitCount(range, CardSeparatorPositions[..i]) <= Removals(field, range)
          invariant cardNumberText ==
            old(cardNumberText)[..|old(cardNumberText)| - HitCount(range, CardSeparatorPositions[..i])]
          invariant cardExpireDateText == old(cardExpireDateText)
          invariant number == old(number) && expireDate == old(expireDate)
        {
          assert CardSeparatorPositions[..i + 1][..i] == CardSeparatorPositions[..i];
          HitCountPrefix(range, CardSeparatorPositions, i + 1);
          if range.Contains(CardSeparatorPositions[i]) {
            cardNumberText := cardNumberText[..|cardNumberText| - 1];
          }
        }
        assert CardSeparatorPositions[..|CardSeparatorPositions|] == CardSeparatorPositions;
      } else {
        for i := 0 to |ExpireSeparatorPositions|
          invariant HitCount(range, ExpireSeparatorPositions[..i]) <= HitCount(range, ExpireSeparatorPositions)
          invariant cardExpireDateText == old(cardExpireDateText)[..|old(cardExpireDateText)| -
            ExpireRemovalsPerHit * HitCount(range, ExpireSeparatorPositions[..i])]
          invariant cardNumberText == old(cardNumberText)
          invariant number == old(number) && expireDate == old(expireDate)
        {
          assert ExpireSeparatorPositions[..i + 1][..i] == ExpireSeparatorPositions[..i];
          HitCountPrefix(range, ExpireSeparatorPositions, i + 1);
          if range.Contains(ExpireSeparatorPositions[i]) {
            cardExpireDateText := cardExpireDateText[..|cardExpireDateText| - 1];
            cardExpireDateText := cardExpireDateText[..|cardExpireDateText| - 1];
            cardExpireDateText := cardExpireDateText[..|cardExpireDateText| - 1];
          }
        }
        assert ExpireSeparatorPositions[..|ExpireSeparatorPositions|] == ExpireSeparatorPositions;
      }
      allowed := true;
    }
  }
}
