# SwiftCardReader card-capture core in Dafny

SwiftCardReader is an iOS app. It reads a payment card's number and expiry
date, either from the camera through on-device text recognition or typed by
hand into two formatted text fields. This project models the logic of that flow
and proves properties of it. The camera and text recognition themselves are left
out.

- `StringExt` (`string_ext.dfy`) holds the app's `String` helpers:
  `isNumeric`, `withoutWhiteSpace` and the two display formatters. They are
  defined in `SwiftCardReader/Supporting files/Extensions.swift`, lines 50-54,
  56-58, 60-67 and 69-76. The table below cites the lines where the screens
  call them. It also holds
  the two Foundation operations the app relies on: removing every occurrence of
  a character, and splitting on a separator.
- `CardModel` (`card_model.dfy`) is the camera screen's view model. It is a
  class with a card number, an expiry date and the stored value of the
  `didSetupCardAttribute` observable. Its abstract value is `CardAttributes`.
  The class invariant `Valid()` says that the observable mirrors `isValid`.
- `CameraScreen` (`camera_screen.dfy`) is the camera screen. `InspectText`
  is the loop of `inspectText(from:)`. Each line is classified (`Classify`), and the loop is proved against
  `ApplyMatches`, the line-by-line meaning of one recognised frame. The listener bound in `bind()`
  forwards a valid card to the delegate and ends the scan.
- `MainScreen` (`main_screen.dfy`) is the manual-entry screen. It covers the
  edit handlers with their length caps and the delegate rule that removes
  trailing characters around separators. It also covers the hand-over of a
  recognised card. The two `Dynamic("")` cells of `MainViewModel` are
  kept as the controller's `number` and `expireDate` fields.
- `CameraCapture` (`camera_manager.dfy`) holds the orientation table given to
  the text recognizer, plus the optional capture session with `stopSession`.
- `Options` (`options.dfy`) holds the optional-value datatype.

Behaviour of the code worth knowing, all modelled as written:

- Only the space character is removed from a recognised line or a typed
  number. Tabs and other whitespace stay.
- An expiry line is any 5-character line that contains at least one `/`.
  Every `/` is removed, so `1//25` gives `125` and `12/25` gives `1225`. The
  result is 1 to 4 digits long. A result shorter than 4 digits is stored but
  leaves the card invalid.
- A 5-character slash line whose remainder is not numeric ends the whole
  frame. This is the `return` inside the loop. No later line is looked at.
- Lines are processed in order, and the last match of each kind wins.
- Validity is a length check only: 16 and 4 characters.

## Model

| member | source | states |
|---|---|---|
| `StringExt.IsNumeric` | SwiftCardReader/Sessions/Camera/CameraViewController.swift:99 | true exactly for non-empty strings of ASCII digits; such a string holds no space and no slash |
| `StringExt.HasDecimalDigit` | SwiftCardReader/Sessions/Camera/CameraViewController.swift:99 | true exactly when some character is a decimal digit |
| `StringExt.DigitGuardIsRedundant` | SwiftCardReader/Sessions/Camera/CameraViewController.swift:99-103 | for any digit set containing the ASCII digits, "has a digit and is numeric" equals "is numeric", so the breadth of the platform digit set does not matter |
| `StringExt.RemoveAll` | SwiftCardReader/Sessions/Camera/CameraViewController.swift:102 | removes every occurrence of the character and keeps every other character's count; the length drops by the number of occurrences |
| `StringExt.WithoutWhiteSpace` | SwiftCardReader/Sessions/Main/MainViewController.swift:56 | the result has no space and every other character, tabs included, keeps its count |
| `StringExt.Components` | SwiftCardReader/Sessions/Camera/CameraViewController.swift:96 | splitting always gives at least one piece, even for the empty text |
| `StringExt.ComponentsShape` | SwiftCardReader/Sessions/Camera/CameraViewController.swift:96 | there is one piece more than there are separators, and no piece contains the separator |
| `StringExt.JoinComponents` | SwiftCardReader/Sessions/Camera/CameraViewController.swift:96 | joining the pieces with the separator gives the text back, so splitting loses and reorders nothing |
| `StringExt.MakeReadableCardNumber` | SwiftCardReader/Sessions/Main/MainViewController.swift:59 | the loop builds the card display form: each character, with a space after indexes 3, 7 and 11 |
| `StringExt.MakeReadableExpireDateForCard` | SwiftCardReader/Sessions/Main/MainViewController.swift:70 | the loop builds the expiry display form: each character, with " / " after index 1 |
| `StringExt.ReadableCardNumberLength` | SwiftCardReader/Sessions/Main/MainViewController.swift:59 | the card display form is one character longer per 4-character group passed (at most 3) |
| `StringExt.ReadableExpireDateLength` | SwiftCardReader/Sessions/Main/MainViewController.swift:70 | the expiry display form is 3 characters longer once the input has more than one character |
| `StringExt.CardSpacePositions` | SwiftCardReader/Sessions/Main/MainViewController.swift:59 | for a space-free number, the display form has a space at indexes 4, 9 and 14 (as far as it reaches) and nowhere else |
| `StringExt.CardNumberRoundTrip` | SwiftCardReader/Sessions/Main/MainViewController.swift:56-60 | removing the spaces from the card display form of a space-free string gives the string back |
| `StringExt.NormalizeExpireDate` | SwiftCardReader/Sessions/Main/MainViewController.swift:64 | the expiry field's normalisation removes every space and every slash and keeps every other character's count |
| `StringExt.ExpireDateRoundTrip` | SwiftCardReader/Sessions/Main/MainViewController.swift:64-70 | normalising the expiry display form of a string without spaces or slashes gives the string back |
| `CardModel.CardAttributes.WithCardNumber` | SwiftCardReader/Sessions/Camera/CameraViewModel.swift:37-40 | the card number is replaced verbatim, the expiry kept, and the observable then mirrors the validity |
| `CardModel.CardAttributes.WithExpireDate` | SwiftCardReader/Sessions/Camera/CameraViewModel.swift:42-45 | the expiry is replaced verbatim, the card number kept, and the observable then mirrors the validity |
| `CardModel.FreshMirrors` | SwiftCardReader/Sessions/Camera/CameraViewModel.swift:25-28 | a fresh view model (empty fields, observable false) is invalid and already mirrors its validity |
| `CardModel.SettersIdempotent` | SwiftCardReader/Sessions/Camera/CameraViewModel.swift:37-45 | setting the same card number or expiry twice leaves the same state as setting it once |
| `CardModel.ShortCardNumberInvalid` | SwiftCardReader/Sessions/Camera/CameraViewModel.swift:33-39 | after setting a card number whose length is not 16, the card is invalid and the observable false, whatever the expiry |
| `CardModel.CameraViewModel.IsValid` | SwiftCardReader/Sessions/Camera/CameraViewModel.swift:33-35 | `isValid` agrees with the abstract state's length-only validity |
| `CardModel.CameraViewModel.constructor` | SwiftCardReader/Sessions/Camera/CameraViewModel.swift:25-28 | the new view model has empty fields and a false observable, and satisfies the invariant |
| `CardModel.CameraViewModel.SetCardNumber` | SwiftCardReader/Sessions/Camera/CameraViewModel.swift:37-40 | stores the argument, keeps the expiry, sets the observable to the new validity, keeps the invariant |
| `CardModel.CameraViewModel.SetExpireDate` | SwiftCardReader/Sessions/Camera/CameraViewModel.swift:42-45 | stores the argument, keeps the card number, sets the observable to the new validity, keeps the invariant |
| `CameraScreen.Classify` | SwiftCardReader/Sessions/Camera/CameraViewController.swift:98-105 | a card line carries a numeric number of 16 characters; an expiry line carries a numeric date of at most 4 characters |
| `CameraScreen.ClassifyCases` | SwiftCardReader/Sessions/Camera/CameraViewController.swift:98-105 | a line is a card number exactly when its space-free form is numeric and 16 long (and the number is that form); it is an expiry exactly when that form is 5 long, holds a `/` and its slash-free rest is numeric (and the date is that rest); with a non-numeric rest it aborts |
| `CameraScreen.ExpiryCandidateShape` | SwiftCardReader/Sessions/Camera/CameraViewController.swift:101-104 | an expiry candidate is numeric, 5 minus the number of slashes long, so between 1 and 4 characters |
| `CameraScreen.Matches` | SwiftCardReader/Sessions/Camera/CameraViewController.swift:97-98 | one classification per line, in order, each of them well formed |
| `CameraScreen.ApplyMatches` | SwiftCardReader/Sessions/Camera/CameraViewController.swift:97-106 | processing a frame keeps the observable mirroring validity; over well-formed lines, a changed card number is 16 digits and a changed expiry is 1 to 4 digits |
| `CameraScreen.FirstAbort` | SwiftCardReader/Sessions/Camera/CameraViewController.swift:97-103 | no line before the returned index aborts, and the line at it, if any, does |
| `CameraScreen.ApplyExamined` | SwiftCardReader/Sessions/Camera/CameraViewController.swift:97-103 | a frame has the same effect as the lines before its first aborting line |
| `CameraScreen.LastWinsWithoutAbort` | SwiftCardReader/Sessions/Camera/CameraViewController.swift:97-106 | without aborting lines, each field ends with the value of its last matching line, or keeps its value; the observable is the final validity once a field was set, else unchanged |
| `CameraScreen.LastWins` | SwiftCardReader/Sessions/Camera/CameraViewController.swift:97-106 | for any frame, each field ends with the value of its last matching line before the first aborting line, or keeps its value |
| `CameraScreen.AbortHidesRest` | SwiftCardReader/Sessions/Camera/CameraViewController.swift:103 | after an aborting line, no later line has any effect |
| `CameraScreen.AbortingLineHidesRest` | SwiftCardReader/Sessions/Camera/CameraViewController.swift:96-103 | for text lines: once a line aborts, the lines after it have no effect on the view model |
| `CameraScreen.NoMatchIgnored` | SwiftCardReader/Sessions/Camera/CameraViewController.swift:99-105 | a line matching neither shape can be removed from the frame without changing the result |
| `CameraScreen.CameraViewController.constructor` | SwiftCardReader/Sessions/Main/MainViewController.swift:76-78 | the screen gets the given view model and delegate, and a new camera manager with no running session |
| `CameraScreen.CameraViewController.InspectText` | SwiftCardReader/Sessions/Camera/CameraViewController.swift:95-107 | the view model ends in the state `ApplyMatches` gives for the classified lines of the text split on "\n" |
| `CameraScreen.CameraViewController.DidSetupCardAttribute` | SwiftCardReader/Sessions/Camera/CameraViewController.swift:59-64 | a false delivery changes nothing; a true one gives the delegate the card number and expiry with their display forms, stops and drops the session of the same camera manager, and dismisses |
| `CameraScreen.CameraViewController.Bind` | SwiftCardReader/Sessions/Camera/CameraViewController.swift:58-65 | the listener runs once with the current value: when the card is valid, the delegate receives the view model's card number and expiry (16 and 4 characters) with their display forms, the same camera manager's session is stopped and dropped, and the screen is dismissed; otherwise the manager, the delegate and the dismissed flag are unchanged |
| `CameraScreen.CameraViewController.CloseCamera` | SwiftCardReader/Sessions/Camera/CameraViewController.swift:109-115 | the screen's own camera manager (not a replacement) has its session, output and preview layer dropped, nothing runs, and the screen is dismissed |
| `MainScreen.HitCount` | SwiftCardReader/Sessions/Main/MainViewController.swift:105 | the number of watched positions inside the range, zero exactly when the range covers none |
| `MainScreen.RemovalsWithinText` | SwiftCardReader/Sessions/Main/MainViewController.swift:101-118 | for an edit range within the text, the delegate never removes more characters than the text has, so `removeLast` cannot trap |
| `MainScreen.DeleteBackward` | SwiftCardReader/Sessions/Main/MainViewController.swift:57 | the text loses its last character, if it has one |
| `MainScreen.CardBackspaceRemovesSeparator` | SwiftCardReader/Sessions/Main/MainViewController.swift:102-105 | for a backspace at the end of a displayed card number, the delegate removes one trailing character exactly when the deleted character is a separator space, and none otherwise |
| `MainScreen.ExpireBackspaceRemovesSeparator` | SwiftCardReader/Sessions/Main/MainViewController.swift:106-115 | for a backspace at the end of a displayed expiry, the delegate removes three characters exactly when two digits are shown, and those three are the " / " separator |
| `MainScreen.MainViewController.constructor` | SwiftCardReader/Sessions/Main/MainViewModel.swift:15-17 | both view-model values and both fields start empty |
| `MainScreen.MainViewController.DidChangeCardNumber` | SwiftCardReader/Sessions/Main/MainViewController.swift:55-61 | over 16 space-free characters, one character is deleted and the number is kept; otherwise the number becomes the space-free text (at most 16) and the field shows its display form, which strips back to it |
| `MainScreen.MainViewController.DidChangeCardExpireDate` | SwiftCardReader/Sessions/Main/MainViewController.swift:63-72 | over 4 characters once spaces and slashes are gone, one character is deleted and the expiry is kept; otherwise the expiry becomes that text (at most 4) and the field shows its display form, which normalises back to it |
| `MainScreen.MainViewController.DidRecognizeCard` | SwiftCardReader/Sessions/Main/MainViewController.swift:89-94 | both values are stored unchanged and both fields show their display forms |
| `MainScreen.MainViewController.ShouldChangeCharacters` | SwiftCardReader/Sessions/Main/MainViewController.swift:101-118 | always allows the edit; the edited field loses one trailing character per covered position 4, 9 or 14 (card) or three for position 4 (expiry); nothing else changes |
| `CameraCapture.CaptureConditions` | SwiftCardReader/Sessions/Camera/CameraManager.swift:47-55 | reads the table backwards: every recognizer orientation comes from an upright device orientation and a front or back camera |
| `CameraCapture.ImageOrientation` | SwiftCardReader/Sessions/Camera/CameraManager.swift:46-59 | for the four upright orientations the result determines the orientation and whether the camera is the front one; every other orientation gives `leftTop` |
| `CameraCapture.FrontDiffersFromOthers` | SwiftCardReader/Sessions/Camera/CameraManager.swift:47-55 | for each upright orientation the front camera's result differs from any other camera's |
| `CameraCapture.EveryOrientationReached` | SwiftCardReader/Sessions/Camera/CameraManager.swift:47-55 | every recognizer orientation is produced by the table, so on upright orientations it is a bijection |
| `CameraCapture.CameraManager.IsCaptureSessionRunning` | SwiftCardReader/Sessions/Camera/CameraManager.swift:21-24 | false whenever there is no capture session |
| `CameraCapture.CameraManager.constructor` | SwiftCardReader/Sessions/Camera/CameraManager.swift:13-28 | a new manager has no session, output or preview layer, so nothing runs |
| `CameraCapture.CameraManager.StopSession` | SwiftCardReader/Sessions/Camera/CameraManager.swift:61-66 | the session, output and preview layer are dropped and the session no longer counts as running |

## Left out

- Camera hardware: `prepareCamera`, the `configure*` functions, `createCaptureSession`, `displayPreview`, `startScan`, `captureOutput` and `convert`. They control AVFoundation devices and dispatch queues and convert images. As a result, nothing in the model can start a capture session.
- Text recognition: `readText` and `visionImage` call the Firebase recognizer. The recognised text of a frame is the parameter of `InspectText`.
- `matches(for:in:)` wraps NSRegularExpression and is never called.
- Layout, animation and styling: the installer files, `TextField`, `pulseAnimate`, `localizeText` and `viewWillAppear`.
- Presentation: `shouldDisplayCamera`, `forceEndEditing` and the tap gesture in `MainViewController`. Dismissal is a flag.
- Cursor handling: the cursor moves that `shouldChangeCharactersIn` performs are not modelled. `MainScreen.DeleteBackward` removes the last character, taking the cursor to be at the end with no selection.
- Follow-up edits: the `editingChanged` event that `deleteBackward()` may raise again is not modelled. Neither is what the text field does with the edit after the delegate returns `true`.
- `Dynamic<T>`: only its stored `value` is kept. The listener slot and the asynchronous delivery on the main queue are not modelled, so the model says nothing about when a listener runs. `Bind` models the one synchronous call that `bindAndFire` makes.
- `CameraScreen.CameraViewController.CloseCamera`: the delegate's `didTouchDismissButton`, which `closeCamera` calls, has an empty default body and is not modelled.
- Characters: a Swift `Character` (a grapheme cluster) is one `char`, so `count` is the sequence length. Splitting on "\n" works on these characters.
- Decimal digits: `CharacterSet.decimalDigits` is taken to be the ASCII digits. `StringExt.DigitGuardIsRedundant` shows that this does not change any result.
- Optional text: the text fields' text is always present. The `nil` guards of the handlers and the optional chaining on `removeLast` are not modelled.
- `MainScreen.MainViewController.ShouldChangeCharacters`: it requires the text to be long enough for every `removeLast`, because the code traps on an empty string. `MainScreen.RemovalsWithinText` shows the requirement always holds when the edit range lies within the text, as the ranges the text field delivers do, so the trap is unreachable in practice.
