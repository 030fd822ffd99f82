/**
 * The camera screen (`CameraViewController`): the interpreter that reads the
 * recognised text of one frame line by line and pushes card numbers and
 * expiry dates into the view model, and the reaction to the view model's
 * validity, which hands the card to the delegate and ends the scan.
 */
module CameraScreen {

  import opened Options
  import opened StringExt
  import opened CardModel
  import opened CameraCapture
  import opened MainScreen

  /** Length of a card-number line once its spaces are removed. */
  const CardLineLength := 16
  /** Length of an expiry line, slashes included. */
  const ExpireLineLength := 5

  /** What the interpreter makes of one line. */
  datatype LineMatch =
    | CardCandidate(number: string)  // sets the card number
    | ExpiryCandidate(date: string)  // sets the expiry date
    | Abort                          // a slash line whose rest is not numeric: stop the batch
    | NoMatch                        // nothing to do

  /**
   * The body of the loop in `inspectText`, as a classification of one line:
   * the line without spaces is a card number when it is numeric and 16 long;
   * otherwise, when it contains '/' and is 5 long, its slash-free rest is an
   * expiry date if numeric, and stops the batch if not.
   */
  function Classify(word: string): (m: LineMatch)
    ensures m.CardCandidate? ==> |m.number| == CardLineLength && IsNumeric(m.number)
    ensures m.ExpiryCandidate? ==>
      |m.date| <= CardModel.CardExpireDateMaxCount && IsNumeric(m.date)
  {
    var text := WithoutWhiteSpace(word);
    if HasDecimalDigit(text) && IsNumeric(text) && |text| == CardLineLength then
      CardCandidate(text)
    else if '/' in text && |text| == ExpireLineLength then
      var expireDate := RemoveAll(text, '/');
      if !(HasDecimalDigit(expireDate) && IsNumeric(expireDate)) then Abort
      else
        assert '/' in multiset(text);
        ExpiryCandidate(expireDate)
    else
      NoMatch
  }

  /**
   * Which lines fall in which case: a line is a card line exactly when its
   * space-free text is numeric and 16 long; it is an expiry line, or aborts,
   * exactly when that text is 5 long, holds a '/', and its slash-free rest is,
   * or is not, numeric. The values carried are those texts.
   */
  lemma ClassifyCases(word: string)
    ensures var t := WithoutWhiteSpace(word); var m := Classify(word);
      (m.CardCandidate? <==> |t| == CardLineLength && IsNumeric(t)) &&
      (m.CardCandidate? ==> m.number == t) &&
      (m.ExpiryCandidate? <==>
        |t| == ExpireLineLength && '/' in t && IsNumeric(RemoveAll(t, '/'))) &&
      (m.ExpiryCandidate? ==> m.date == RemoveAll(t, '/')) &&
      (m.Abort? <==>
        |t| == ExpireLineLength && '/' in t && !IsNumeric(RemoveAll(t, '/')))
  {
    var t := WithoutWhiteSpace(word);
    if IsNumeric(t) {
      assert IsDigit(t[0]);
    }
    var e := RemoveAll(t, '/');
    if IsNumeric(e) {
      assert IsDigit(e[0]);
    }
  }

  /**
   * An expiry candidate has between 1 and 4 digits: the line's 5 characters
   * less one per slash.
   */
  lemma ExpiryCandidateShape(word: string)
    requires Classify(word).ExpiryCandidate?
    ensures var t := WithoutWhiteSpace(word);
      |Classify(word).date| == ExpireLineLength - multiset(t)['/'] &&
      1 <= |Classify(word).date| <= CardModel.CardExpireDateMaxCount &&
      IsNumeric(Classify(word).date)
  {
    ClassifyCases(word);
    var t := WithoutWhiteSpace(word);
    assert '/' in multiset(t);
  }

  /** The values a line may carry: a 16-digit card number, a 1- to 4-digit expiry. */
  predicate WellFormed(m: LineMatch) {
    (m.CardCandidate? ==> |m.number| == CardLineLength && IsNumeric(m.number)) &&
    (m.ExpiryCandidate? ==> 1 <= |m.date| <= CardModel.CardExpireDateMaxCount && IsNumeric(m.date))
  }

  /** The classification of each line, in order. */
  function Matches(words: seq<string>): (ms: seq<LineMatch>)
    ensures |ms| == |words|
    ensures forall i :: 0 <= i < |words| ==> ms[i] == Classify(words[i]) && WellFormed(ms[i])
  {
    if words == [] then []
    else
      ExpiryCandidateShapeIfAny(words[0]);
      [Classify(words[0])] + Matches(words[1..])
  }

  /** Every classification is well formed. */
  lemma ExpiryCandidateShapeIfAny(word: string)
    ensures WellFormed(Classify(word))
  {
    if Classify(word).ExpiryCandidate? {
      ExpiryCandidateShape(word);
    }
  }

  /** Classifying a batch made of two parts classifies each part. */
  lemma {:induction false} MatchesConcat(a: seq<string>, b: seq<string>)
    ensures Matches(a + b) == Matches(a) + Matches(b)
  {
    if a != [] {
      assert (a + b)[0] == a[0] && (a + b)[1..] == a[1..] + b;
      MatchesConcat(a[1..], b);
    } else {
      assert a + b == b;
    }
  }

  /** The view model's state after one line that does not abort. */
  function Apply(s: CardAttributes, m: LineMatch): CardAttributes {
    match m
    case CardCandidate(n) => s.WithCardNumber(n)
    case ExpiryCandidate(e) => s.WithExpireDate(e)
    case _ => s
  }

  /**
   * The state of the view model after processing classified lines in order:
   * the first aborting line ends the batch. Each field either keeps its value
   * or holds a well-formed one, and a mirroring observable keeps mirroring.
   */
  function ApplyMatches(s: CardAttributes, ms: seq<LineMatch>): (r: CardAttributes)
    ensures s.Mirrors() ==> r.Mirrors()
    ensures (forall i :: 0 <= i < |ms| ==> WellFormed(ms[i])) ==>
      (r.cardNumber == s.cardNumber || (|r.cardNumber| == CardLineLength && IsNumeric(r.cardNumber))) &&
      (r.expireDate == s.expireDate ||
        (1 <= |r.expireDate| <= CardModel.CardExpireDateMaxCount && IsNumeric(r.expireDate)))
    decreases |ms|
  {
    if ms == [] || ms[0].Abort? then s
    else
      assert forall i :: 0 <= i < |ms[1..]| ==> ms[1..][i] == ms[i + 1];
      ApplyMatches(Apply(s, ms[0]), ms[1..])
  }

  /** Processing from line `i` on: stop there if it aborts, else apply it and go on. */
  lemma ApplyMatchesFrom(s: CardAttributes, ms: seq<LineMatch>, i: nat)
    requires i < |ms|
    ensures ApplyMatches(s, ms[i..]) ==
      if ms[i].Abort? then s else ApplyMatches(Apply(s, ms[i]), ms[i + 1..])
  {
    assert ms[i..][0] == ms[i] && ms[i..][1..] == ms[i + 1..];
  }

  /** Where the first aborting line is, or the batch's length when none aborts. */
  function FirstAbort(ms: seq<LineMatch>): (k: nat)
    ensures k <= |ms|
    ensures forall i :: 0 <= i < k ==> !ms[i].Abort?
    ensures k < |ms| ==> ms[k].Abort?
  {
    if ms == [] || ms[0].Abort? then 0
    else 1 + FirstAbort(ms[1..])
  }

  /** The lines `inspectText` actually acts on: those before the first aborting one. */
  function Examined(ms: seq<LineMatch>): seq<LineMatch> {
    ms[..FirstAbort(ms)]
  }

  /** The card number of the last card line, searched from the end. */
  function LastCardNumber(ms: seq<LineMatch>): Option<string> {
    if ms == [] then None
    else match ms[|ms| - 1]
      case CardCandidate(n) => Some(n)
      case _ => LastCardNumber(ms[..|ms| - 1])
  }

  /** The expiry of the last expiry line, searched from the end. */
  function LastExpireDate(ms: seq<LineMatch>): Option<string> {
    if ms == [] then None
    else match ms[|ms| - 1]
      case ExpiryCandidate(e) => Some(e)
      case _ => LastExpireDate(ms[..|ms| - 1])
  }

  /** Whether one line sets a field. */
  predicate SetsField(m: LineMatch) {
    m.CardCandidate? || m.ExpiryCandidate?
  }

  /** Whether any of the lines sets a field. */
  predicate SetsAField(ms: seq<LineMatch>) {
    exists i :: 0 <= i < |ms| && SetsField(ms[i])
  }

  /** Looking for the last card line over a line followed by more lines. */
  lemma {:induction false} LastCardNumberCons(m: LineMatch, ms: seq<LineMatch>)
    ensures LastCardNumber([m] + ms) ==
      if LastCardNumber(ms).Some? then LastCardNumber(ms) else LastCardNumber([m])
  {
    if ms != [] {
      var all := [m] + ms;
      assert all[|all| - 1] == ms[|ms| - 1];
      assert all[..|all| - 1] == [m] + ms[..|ms| - 1];
      LastCardNumberCons(m, ms[..|ms| - 1]);
    } else {
      assert [m] + ms == [m];
    }
  }

  /** Looking for the last expiry line over a line followed by more lines. */
  lemma {:induction false} LastExpireDateCons(m: LineMatch, ms: seq<LineMatch>)
    ensures LastExpireDate([m] + ms) ==
      if LastExpireDate(ms).Some? then LastExpireDate(ms) else LastExpireDate([m])
  {
    if ms != [] {
      var all := [m] + ms;
      assert all[|all| - 1] == ms[|ms| - 1];
      assert all[..|all| - 1] == [m] + ms[..|ms| - 1];
      LastExpireDateCons(m, ms[..|ms| - 1]);
    } else {
      assert [m] + ms == [m];
    }
  }

  /** A batch has the effect of the part of it that is examined. */
  lemma {:induction false} ApplyExamined(s: CardAttributes, ms: seq<LineMatch>)
    ensures ApplyMatches(s, ms) == ApplyMatches(s, Examined(ms))
    decreases |ms|
  {
    if ms != [] && !ms[0].Abort? {
      var e := Examined(ms);
      var k := FirstAbort(ms[1..]);
      assert FirstAbort(ms) == 1 + k;
      assert e[0] == ms[0] && e[1..] == ms[1..][..k];
      ApplyExamined(Apply(s, ms[0]), ms[1..]);
    }
  }

  lemma SetsAFieldCons(m: LineMatch, ms: seq<LineMatch>)
    ensures SetsAField([m] + ms) <==> SetsField(m) || SetsAField(ms)
  {
    var all := [m] + ms;
    if SetsAField(ms) {
      var i :| 0 <= i < |ms| && SetsField(ms[i]);
      assert all[i + 1] == ms[i];
    }
    if SetsAField(all) && !SetsField(m) {
      var i :| 0 <= i < |all| && SetsField(all[i]);
      assert i > 0 && ms[i - 1] == all[i];
    }
    if SetsField(m) {
      assert all[0] == m;
    }
  }

  /**
   * Last wins, over lines that do not abort: the card number afterwards is
   * that of the last card line, or the previous one when there is none; the
   * same for the expiry date; and the observable is the resulting validity
   * once any field was set, its old value otherwise.
   */
  lemma {:induction false} LastWinsWithoutAbort(s: CardAttributes, ms: seq<LineMatch>)
    requires forall i :: 0 <= i < |ms| ==> !ms[i].Abort?
    ensures ApplyMatches(s, ms).cardNumber == LastCardNumber(ms).GetOr(s.cardNumber)
    ensures ApplyMatches(s, ms).expireDate == LastExpireDate(ms).GetOr(s.expireDate)
    ensures ApplyMatches(s, ms).didSetup ==
      if SetsAField(ms) then ApplyMatches(s, ms).IsValid() else s.didSetup
    decreases |ms|
  {
    if ms != [] {
      var m, rest := ms[0], ms[1..];
      assert ms == [m] + rest;
      LastCardNumberCons(m, rest);
      LastExpireDateCons(m, rest);
      SetsAFieldCons(m, rest);
      assert [m][..0] == [];
      LastWinsWithoutAbort(Apply(s, m), rest);
    }
  }

  /**
   * Last wins, for any batch: each field ends up holding the value of its
   * last line before the first aborting line, or keeps its value.
   */
  lemma LastWins(s: CardAttributes, ms: seq<LineMatch>)
    ensures ApplyMatches(s, ms).cardNumber == LastCardNumber(Examined(ms)).GetOr(s.cardNumber)
    ensures ApplyMatches(s, ms).expireDate == LastExpireDate(Examined(ms)).GetOr(s.expireDate)
  {
    ApplyExamined(s, ms);
    LastWinsWithoutAbort(s, Examined(ms));
  }

  /** A line that aborts hides every line after it. */
  lemma {:induction false} AbortHidesRest(s: CardAttributes, before: seq<LineMatch>, after: seq<LineMatch>)
    ensures ApplyMatches(s, before + [Abort] + after) == ApplyMatches(s, before)
    decreases |before|
  {
    var all := before + [Abort] + after;
    if before == [] {
      assert all[0] == Abort;
    } else {
      assert all[0] == before[0] && all[1..] == before[1..] + [Abort] + after;
      if !before[0].Abort? {
        AbortHidesRest(Apply(s, before[0]), before[1..], after);
      }
    }
  }

  /** A line that matches neither shape can be dropped from the batch. */
  lemma {:induction false} NoMatchIgnored(s: CardAttributes, before: seq<LineMatch>, after: seq<LineMatch>)
    ensures ApplyMatches(s, before + [NoMatch] + after) == ApplyMatches(s, before + after)
    decreases |before|
  {
    var all := before + [NoMatch] + after;
    if before == [] {
      assert all[0] == NoMatch && all[1..] == after;
      assert before + after == after;
    } else {
      assert all[0] == before[0] && all[1..] == before[1..] + [NoMatch] + after;
      assert (before + after)[0] == before[0] && (before + after)[1..] == before[1..] + after;
      if !before[0].Abort? {
        NoMatchIgnored(Apply(s, before[0]), before[1..], after);
      }
    }
  }

  /** The same for a text line that aborts: nothing after it is looked at. */
  lemma AbortingLineHidesRest(s: CardAttributes, before: seq<string>, w: string, after: seq<string>)
    requires Classify(w).Abort?
    ensures ApplyMatches(s, Matches(before + [w] + after)) == ApplyMatches(s, Matches(before))
  {
    MatchesConcat(before + [w], after);
    MatchesConcat(before, [w]);
    assert Matches([w]) == [Abort];
    AbortHidesRest(s, Matches(before), Matches(after));
  }

  class CameraViewController {
    var viewModel: CameraViewModel
    var cameraManager: CameraManager
    /** The weak delegate: the manual-entry screen that presented this one, if any. */
    var delegate: MainViewController?
    /** Whether the screen has been dismissed. */
    var dismissed: bool

    constructor (viewModel: CameraViewModel, delegate: MainViewController?)
      ensures this.viewModel == viewModel && this.delegate == delegate
      ensures fresh(cameraManager) && !cameraManager.IsCaptureSessionRunning()
      ensures !dismissed
    {
      this.viewModel := viewModel;
      this.delegate := delegate;
      cameraManager := new CameraManager();
      dismissed := false;
    }

    /**
     * `inspectText(from:)`: split the recognised text on "\n" and classify the
     * lines in order, setting the view model's fields as they match; an
     * aborting line ends the whole call.
     */
    method InspectText(recognizedText: string)
      modifies viewModel
      ensures viewModel.Attributes() ==
        ApplyMatches(old(viewModel.Attributes()), Matches(Components(recognizedText, '\n')))
    {
      var words := Components(recognizedText, '\n');
      ghost var start := viewModel.Attributes();
      ghost var ms := Matches(words);
      for i := 0 to |words|
        invariant ApplyMatches(start, ms) == ApplyMatches(viewModel.Attributes(), ms[i..])
      {
        var word := words[i];
        ghost var m := ms[i];
        assert m == Classify(word);
        ApplyMatchesFrom(viewModel.Attributes(), ms, i);
        var text := WithoutWhiteSpace(word);
        if HasDecimalDigit(text) && IsNumeric(text) && |text| == CardLineLength {
          assert m == CardCandidate(text);
          viewModel.SetCardNumber(text);
        } else if '/' in text && |text| == ExpireLineLength {
          var expireDate := RemoveAll(text, '/');
          if !(HasDecimalDigit(expireDate) && IsNumeric(expireDate)) {
            assert m == Abort;
            return;
          }
          assert m == ExpiryCandidate(expireDate);
          viewModel.SetExpireDate(expireDate);
        } else {
          assert m == NoMatch;
        }
      }
    }

    /**
     * The listener `bind()` attaches to `didSetupCardAttribute`: a `false`
     * delivery does nothing; a `true` one hands the view model's card to the
     * delegate, stops the camera session and dismisses the screen.
     */
    method DidSetupCardAttribute(isValid: bool)
      modifies this, cameraManager, delegate
      ensures delegate == old(delegate) && viewModel == old(viewModel) && cameraManager == old(cameraManager)
      ensures !isValid ==>
        (dismissed == old(dismissed) && unchanged(cameraManager) &&
         (delegate != null ==> unchanged(delegate)))
      ensures isValid ==>
        (dismissed && !cameraManager.IsCaptureSessionRunning() &&
         cameraManager.captureSession == None && !cameraManager.hasVideoOutput && !cameraManager.hasPreviewLayer &&
         (delegate != null ==>
            delegate.number == viewModel.cardNumber && delegate.expireDate == viewModel.expireDate &&
            delegate.cardNumberText == ReadableCardNumber(viewModel.cardNumber) &&
            delegate.cardExpireDateText == ReadableExpireDate(viewModel.expireDate)))
    {
      if !isValid {
        return;
      }
      if delegate != null {
        delegate.DidRecognizeCard(viewModel.cardNumber, viewModel.expireDate);
      }
      cameraManager.StopSession();
      dismissed := true;
    }

    /**
     * `bind()`, through `bindAndFire`: the listener runs once at once with the
     * current value. With a view model that mirrors its validity, the listener
     * acts exactly when the card is valid: the delegate then receives the view
     * model's card (a 16-character number and a 4-character expiry) with its
     * display forms, the session stops and the screen is dismissed; otherwise
     * nothing changes.
     */
    method Bind()
      requires viewModel.Valid()
      modifies this, cameraManager, delegate
      ensures delegate == old(delegate) && viewModel == old(viewModel) && cameraManager == old(cameraManager)
      ensures dismissed == (old(dismissed) || viewModel.IsValid())
      ensures !viewModel.IsValid() ==>
        (unchanged(cameraManager) && (delegate != null ==> unchanged(delegate)))
      ensures viewModel.IsValid() ==>
        (!cameraManager.IsCaptureSessionRunning() &&
         cameraManager.captureSession == None && !cameraManager.hasVideoOutput && !cameraManager.hasPreviewLayer &&
         (delegate != null ==>
            delegate.number == viewModel.cardNumber && delegate.expireDate == viewModel.expireDate &&
            delegate.cardNumberText == ReadableCardNumber(viewModel.cardNumber) &&
            delegate.cardExpireDateText == ReadableExpireDate(viewModel.expireDate)))
      ensures viewModel.IsValid() && delegate != null ==>
        |delegate.number| == CardModel.CardNumberMaxCount && |delegate.expireDate| == CardModel.CardExpireDateMaxCount
    {
      DidSetupCardAttribute(viewModel.didSetupCardAttribute);
    }

    /** `closeCamera`: stop the session and dismiss, without a card. */
    method CloseCamera()
      modifies this, cameraManager
      ensures cameraManager == old(cameraManager)
      ensures dismissed && !cameraManager.IsCaptureSessionRunning()
      ensures cameraManager.captureSession == None && !cameraManager.hasVideoOutput && !cameraManager.hasPreviewLayer
      ensures delegate == old(delegate) && viewModel == old(viewModel)
    {
      cameraManager.StopSession();
      dismissed := true;
    }
  }
}
