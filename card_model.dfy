/**
 * The camera screen's view model (`CameraViewModel`): a card number and an
 * expiry date set one at a time, a validity derived from their lengths, and
 * the value of the `didSetupCardAttribute` observable, which mirrors the
 * validity after every set. The observable is modelled by its stored value
 * only; when its listener is called is not part of this model.
 */
module CardModel {

  const CardNumberMaxCount := 16
  const CardExpireDateMaxCount := 4

  /** `isValid`: a length check only, no digit, checksum or date check. */
  predicate IsValidCard(cardNumber: string, expireDate: string) {
    |cardNumber| == CardNumberMaxCount && |expireDate| == CardExpireDateMaxCount
  }

  /**
   * The abstract state of a `CameraViewModel`: its two fields and the value
   * held by `didSetupCardAttribute`.
   */
  datatype CardAttributes = CardAttributes(cardNumber: string, expireDate: string, didSetup: bool) {

    predicate IsValid() {
      IsValidCard(cardNumber, expireDate)
    }

    /** The observable holds the current validity. */
    predicate Mirrors() {
      didSetup == IsValid()
    }

    /** `set(cardNumber:)` on the abstract state. */
    function WithCardNumber(n: string): (r: CardAttributes)
      ensures r.cardNumber == n && r.expireDate == expireDate
      ensures r.Mirrors()
    {
      CardAttributes(n, expireDate, IsValidCard(n, expireDate))
    }

    /** `set(expireDate:)` on the abstract state. */
    function WithExpireDate(e: string): (r: CardAttributes)
      ensures r.expireDate == e && r.cardNumber == cardNumber
      ensures r.Mirrors()
    {
      CardAttributes(cardNumber, e, IsValidCard(cardNumber, e))
    }
  }

  /** The state of a freshly made view model. */
  const Fresh := CardAttributes("", "", false)

  /** A fresh view model already mirrors its validity, and is not valid. */
  lemma FreshMirrors()
    ensures Fresh.Mirrors() && !Fresh.IsValid()
  {
  }

  /** Setting the same value twice is the same as setting it once. */
  lemma SettersIdempotent(s: CardAttributes, n: string, e: string)
    ensures s.WithCardNumber(n).WithCardNumber(n) == s.WithCardNumber(n)
    ensures s.WithExpireDate(e).WithExpireDate(e) == s.WithExpireDate(e)
  {
  }

  /** A card number that is not 16 characters long makes the card invalid. */
  lemma ShortCardNumberInvalid(s: CardAttributes, n: string)
    requires |n| != CardNumberMaxCount
    ensures !s.WithCardNumber(n).IsValid() && !s.WithCardNumber(n).didSetup
  {
  }

  /** The view model object whose fields the camera screen updates. */
  class CameraViewModel {
    /** `didSetupCardAttribute.value` */
    var didSetupCardAttribute: bool
    var cardNumber: string
    var expireDate: string

    function Attributes(): CardAttributes
      reads this
    {
      CardAttributes(cardNumber, expireDate, didSetupCardAttribute)
    }

    /** The computed property `isValid`. */
    function IsValid(): (b: bool)
      reads this
      ensures b <==> Attributes().IsValid()
    {
      IsValidCard(cardNumber, expireDate)
    }

    /** The observable mirrors `isValid`: true from creation on, kept by every setter. */
    ghost predicate Valid()
      reads this
    {
      Attributes().Mirrors()
    }

    constructor ()
      ensures Attributes() == Fresh
      ensures Valid()
    {
      didSetupCardAttribute := false;
      cardNumber := "";
      expireDate := "";
    }

    /** `set(cardNumber:)`: store verbatim, then publish the validity. */
    method SetCardNumber(n: string)
      modifies this
      ensures cardNumber == n && expireDate == old(expireDate)
      ensures didSetupCardAttribute == IsValidCard(n, old(expireDate))
      ensures Attributes() == old(Attributes()).WithCardNumber(n)
      ensures Valid()
    {
      cardNumber := n;
      didSetupCardAttribute := IsValid();
    }

    /** `set(expireDate:)`: store verbatim, then publish the validity. */
    method SetExpireDate(e: string)
      modifies this
      ensures expireDate == e && cardNumber == old(cardNumber)
      ensures didSetupCardAttribute == IsValidCard(old(cardNumber), e)
      ensures Attributes() == old(Attributes()).WithExpireDate(e)
      ensures Valid()
    {
      expireDate := e;
      didSetupCardAttribute := IsValid();
    }
  }
}
