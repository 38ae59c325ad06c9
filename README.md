# Sunroom quote calculator: a Dafny model

This project models the decision logic of the sunroom quote calculator's page script
(`js/app.js`). A visitor picks a room type (screen only, three-season or glass) and
enters three wall lengths. The page then quotes a price range from a fixed catalog of
per-square-foot rates and minimum job prices. When a quote exists, the visitor can move
on to a contact form. The form is validated before the lead counts as submitted. While
the phone number is typed, the page re-formats it.

The project has five modules:

- `Pricing` (`pricing.dfy`) holds the catalog (`calculatorState.roomPricing`) and the
  estimate formula of `calculatePrice`. The area is the sum of three walls times the
  standard 8-foot height. Each bound is the rate price, raised to the tier's minimum
  total, then rounded to the nearest hundred with `Math.round`.
- `Session` (`session.dfy`) holds the class `QuoteSession`, the global
  `calculatorState`. Its fields are the current screen, the chosen room, its display
  name, the stored walls, the stored price and the state of the continue button. Its
  methods are the handlers that write those fields. The invariant `Valid()` says that
  the stored range is either empty or a rounded, ordered quote. It also says that,
  whenever the stored walls add up to a positive length, the range is the estimate for
  the chosen tier. The gate to the contact screen reads the stored low price.
- `ContactValidation` (`contact_validation.dfy`) models `validateContactForm`. It has
  both regular expressions as character predicates and the field loop as a method
  proved against the error report it must build.
- `PhoneFormat` (`phone_format.dfy`) models `formatPhoneNumber`.
- `Text` (`text.dfy`) gives JavaScript's white space (`\s`, `trim`) and digits (`\d`),
  and a first-position search that locates the `@` when the email pattern is read
  in plain words.

Wall lengths are Dafny `real`s that have already been parsed: an empty or unparsable
field is 0. No sign is required of them, as in the source. Prices are integers,
because every stored price is rounded to a hundred. Screen changes happen at once.

Three behaviours of the source are easy to misread:

- The comment `// Reset if no dimensions` at js/app.js:177 suggests a reset, but
  when the walls add up to zero or less only the display is reset
  (js/app.js:212-219). The total feet are overwritten and the continue button is
  disabled (js/app.js:218), but the stored `min` and `max` keep their last values.
  `showContactForm` tests only the stored `min` (js/app.js:79), so its own gate still
  opens the contact screen with zero linear feet, while the continue button is
  disabled at that moment. `Session.StaleEstimateOpensContact` shows such a trace.
- With no digits, `formatPhoneNumber` produces the empty string, because the length
  check at js/app.js:339 skips the layout.
- An empty email counts only as a missing required field (js/app.js:237-240). The
  format check at js/app.js:249 runs only on a non-empty value, so there is no
  email format error, and the form is invalid because of the missing field.

## Model

| member | source | states |
|---|---|---|
| `Pricing.Catalog` | js/app.js:10-32 | every catalog tier has positive floors in whole hundreds, a low floor at most the high floor, and a low rate at most the high rate; no floor is below 2800; only the screen tier is named "Screen Only" |
| `Pricing.CatalogNamesDistinct` | js/app.js:10-32 | no two tiers share a display name, so the name stored in `roomTypeName` identifies the chosen tier |
| `Pricing.CatalogTiersRise` | js/app.js:10-32 | both floors and both rates rise strictly from screen to three-season to glass |
| `Pricing.WellFormedTier` | js/app.js:10-32 | defines what the estimate needs of a tier: positive floors in whole hundreds, low floor at most high floor, non-negative rates with low at most high |
| `Pricing.LinearFeet` | js/app.js:148 | defines the total linear feet as the sum of the three walls |
| `Pricing.Area` | js/app.js:149 | defines the square feet of a run of walls as its length times the fixed height 8 |
| `Pricing.SquareFeet` | js/app.js:148-149 | defines the square feet of three walls as the area of their sum |
| `Pricing.RatePrice` | js/app.js:159-160 | defines the price of an area at a per-square-foot rate as their product |
| `Pricing.Max` | js/app.js:163-164 | `Math.max` of two amounts is one of them and at least both |
| `Pricing.Round100` | js/app.js:166-168 | `Math.round(x / 100) * 100` is a multiple of 100 within (x - 50, x + 50], i.e. the nearest hundred with halves rounded up |
| `Pricing.Round100Monotone` | js/app.js:166-168 | rounding to hundreds preserves the order of two amounts |
| `Pricing.Round100OfHundreds` | js/app.js:166-168 | rounding leaves a whole number of hundreds unchanged |
| `Pricing.Estimate` | js/app.js:156-168 | each quoted bound is the whole hundred within (p - 50, p + 50] of p, where p is the rate price raised to the tier's floor: the nearest hundred of `Math.max(rate price, floor)`, halves rounded up |
| `Pricing.EstimateAtFloor` | js/app.js:162-168 | while both rate prices are at or below their floors, the quote is exactly the two floors |
| `Pricing.RatePriceMonotone` | js/app.js:159-160 | on a non-negative area the higher per-square-foot rate never gives the lower price |
| `Pricing.FlooredRoundingOrdered` | js/app.js:162-168 | raising two ordered prices to two ordered hundred-valued floors and rounding keeps them ordered and at or above their floors |
| `Pricing.EstimateBounds` | js/app.js:154-168 | for a well-formed tier and non-negative area: minTotal <= min <= max and maxTotal <= max |
| `Pricing.EstimateAboveFloor` | js/app.js:162-164 | once both rate prices reach their floors, the quote is the rounded rate prices alone |
| `Pricing.ScreenRoomByRate` | js/app.js:148-168 | screen tier, walls 10/10/10: 240 sq ft, range 8400 to 12000 |
| `Pricing.GlassRoomAtFloor` | js/app.js:148-168 | glass tier, walls 2/2/2: 48 sq ft, range 12000 to 20000 (the floors) |
| `Text.IsWhitespace` | js/app.js:237 | defines JavaScript's white space and line terminators, the set `trim` strips and `\s` matches |
| `Text.IsDigit` | js/app.js:336 | defines the class `\d`: the ASCII digits `0` to `9` |
| `Text.TrimStart` | js/app.js:237 | defines the removal of leading white space |
| `Text.TrimEnd` | js/app.js:237 | defines the removal of trailing white space |
| `Text.Trim` | js/app.js:237 | defines `String.prototype.trim` as removing leading, then trailing white space |
| `Text.TrimStartSpec` | js/app.js:237 | the start-trim keeps a suffix beginning with a non-white character and drops only white space |
| `Text.TrimEndSpec` | js/app.js:237 | the end-trim keeps a prefix ending with a non-white character and drops only white space |
| `Text.TrimEmptyIff` | js/app.js:237 | `value.trim()` is empty exactly when the value is all white space |
| `Text.IndexOf` | js/app.js:248 | a helper that locates the `@` in the plain-words reading of the email pattern: the first position of a character, or the length when it is absent; nothing before it is that character |
| `ContactValidation.IsBlank` | js/app.js:237 | defines a blank field as one whose trimmed value is empty |
| `ContactValidation.EmailChar` | js/app.js:248 | defines the class `[^\s@]`: neither white space nor `@` |
| `ContactValidation.EmailMatches` | js/app.js:248-249 | defines the email pattern as the regular expression reads it: a split into a non-empty run, `@`, a non-empty run, `.`, and a non-empty run, with no run holding white space or `@` |
| `ContactValidation.EmailWellFormed` | js/app.js:248 | defines the independent plain-words reading of the email pattern: no white space, exactly one `@` with something before it, and a domain with a dot neither first nor last |
| `ContactValidation.MatchIsWellFormed` | js/app.js:248-249 | a split matching the email pattern puts the first and only `@` at its split point, with no white space anywhere and an interior dot in the domain |
| `ContactValidation.WellFormedMatches` | js/app.js:248-249 | an address with no white space, one `@` after a non-empty local part, and an interior dot in the domain has a split the pattern accepts |
| `ContactValidation.EmailMatchesIff` | js/app.js:248-249 | the email pattern accepts exactly the addresses with no white space, exactly one `@`, a non-empty local part and a domain whose dot is neither first nor last |
| `ContactValidation.EmailExamples` | js/app.js:248-249 | "a@b" is rejected and "a@b.com" accepted |
| `ContactValidation.PhoneChar` | js/app.js:257 | defines the class `[\d\s\-\(\)]` |
| `ContactValidation.PhoneMatches` | js/app.js:257-258 | defines the phone pattern `^[\d\s\-\(\)]+$`: non-empty, every character in the class |
| `ContactValidation.FormattedPhoneMatches` | js/app.js:257-258 | any phone value the formatter builds from at least one digit passes the phone pattern |
| `ContactValidation.FieldIndex` | js/app.js:231 | each field has a position in the required-field list |
| `ContactValidation.FieldIndexOfRequired` | js/app.js:231 | the seven required fields are distinct and each sits at its own position |
| `ContactValidation.Rank` | js/app.js:231-262 | defines where each error stands in the report: missing fields by their position in the required list, then the email error, then the phone error |
| `ContactValidation.MissingFields` | js/app.js:233-244 | defines the missing-field errors pushed for the first n required fields, in field order |
| `ContactValidation.EmailErrors` | js/app.js:246-253 | defines the email error: pushed when the email is non-empty and fails its pattern |
| `ContactValidation.PhoneErrors` | js/app.js:255-262 | defines the phone error: pushed when the phone is non-empty and fails its pattern |
| `ContactValidation.Errors` | js/app.js:233-262 | defines the whole `errors` array: missing fields, then the email error, then the phone error |
| `ContactValidation.AcceptableForm` | js/app.js:230-268 | defines an acceptable form independently of the report: no field blank, a non-empty email matching its pattern, a non-empty phone matching its pattern |
| `ContactValidation.MissingFieldsExact` | js/app.js:235-244 | after n fields, the missing-field errors name exactly the blank fields among the first n, each once, in field order |
| `ContactValidation.ErrorsOrdered` | js/app.js:230-262 | the report has no duplicates and lists missing fields in the order fullName, address, city, state, zip, phone, email, then the email error, then the phone error |
| `ContactValidation.NoErrorsIffAcceptable` | js/app.js:230-268 | the report is empty exactly when no field is blank, a non-empty email matches its pattern and a non-empty phone matches its pattern |
| `ContactValidation.BlankEmailReportedTwice` | js/app.js:237-252 | a non-empty white-space-only email yields both the missing-field error and the email error |
| `ContactValidation.EmptyEmailOnlyMissing` | js/app.js:237-252 | an empty email yields the missing-field error but no email error |
| `ContactValidation.ValidateContactForm` | js/app.js:230-269 | the loop builds exactly the error report, and the result is true iff the form is acceptable, iff the report is empty |
| `PhoneFormat.Digits` | js/app.js:336 | removing non-digits leaves only digits, and never more characters than the input |
| `PhoneFormat.Format` | js/app.js:334-350 | the new phone value is empty exactly when no digit was typed, and is at most 14 characters long |
| `PhoneFormat.Layout` | js/app.js:339-347 | the layout is empty exactly when there are no digits, otherwise starts with `(`, and is at most 14 characters long |
| `PhoneFormat.DigitsAppend` | js/app.js:336 | digit extraction distributes over concatenation |
| `PhoneFormat.DigitsNoneIff` | js/app.js:336 | nothing is left exactly when no character is a digit; with `DigitsAppend` and `DigitsOfDigits` this pins down that every non-digit is removed and every digit kept, in order |
| `PhoneFormat.DigitsOfDigits` | js/app.js:336 | a string of digits is unchanged by digit extraction |
| `PhoneFormat.DigitsOfSeparators` | js/app.js:341-345 | the separators `(`, `) ` and `-` hold no digits |
| `PhoneFormat.DigitsAfterSeparator` | js/app.js:343-345 | a separator followed by digits contributes only those digits |
| `PhoneFormat.LayoutDigitsMedium` | js/app.js:342-343 | the 4-to-6-digit layout holds all its digits in order |
| `PhoneFormat.LayoutDigitsLong` | js/app.js:344-345 | the 7-or-more-digit layout holds the first ten digits in order |
| `PhoneFormat.FormatKeepsDigits` | js/app.js:334-350 | the digits of the formatted value are the first min(10, n) typed digits, in order |
| `PhoneFormat.LayoutFirstTen` | js/app.js:345 | the layout depends only on the first ten digits |
| `PhoneFormat.FormatIdempotent` | js/app.js:334-350 | formatting an already formatted value changes nothing |
| `PhoneFormat.FormatShape` | js/app.js:339-347 | the formatted value is empty iff no digit was typed, otherwise starts with `(`, and holds at most ten digits |
| `PhoneFormat.LayoutCharacters` | js/app.js:341-345 | every character of a layout is a digit, `(`, `)`, a space or `-` |
| `PhoneFormat.FormatFullNumber` | js/app.js:344-345 | "5551234567" becomes "(555) 123-4567" |
| `PhoneFormat.FormatAreaCode` | js/app.js:340-341 | "555" becomes "(555" |
| `PhoneFormat.FormatDropsLetters` | js/app.js:336-341 | "abc123" becomes "(123" |
| `PhoneFormat.FormatDropsExtraDigits` | js/app.js:345 | "55512345678888" becomes "(555) 123-4567" |
| `Session.AllWallsPositive` | js/app.js:199-209 | defines the continue rule: each of the three walls is greater than zero |
| `Session.QuotedOrEmpty` | js/app.js:154-179 | defines the stored ranges that can arise: the initial zero range, or whole hundreds with 0 < min <= max |
| `Session.QuoteSession.Consistent` | js/app.js:130-219 | defines what holds after any handler: the initial values while no room is chosen, totals matching the stored walls, a stored range that is empty or a quote, and the continue button following the continue rule |
| `Session.QuoteSession.Valid` | js/app.js:95-219 | defines the session invariant: consistency, the name of the chosen tier, and, whenever the stored total is positive, the stored range equal to that tier's estimate |
| `Session.ContinueStricterThanEstimate` | js/app.js:199-209 | three positive walls make a positive total, but walls 5/0/5 give a positive total with the continue rule off |
| `Session.RecalculatedPrice` | js/app.js:140-179 | the stored totals are the walls' sum and area; the range stays empty or a quote; a positive total yields at least the tier's floors, and otherwise the previous min and max are kept |
| `Session.RecalculationIdempotent` | js/app.js:130-180 | recalculating with the same tier and walls a second time changes nothing |
| `Session.QuoteSession.constructor` | js/app.js:6-45 | the initial state: landing screen, no room, empty name, zero walls and price, continue disabled, and the invariant holds |
| `Session.QuoteSession.ShowScreen` | js/app.js:51-68 | the screen becomes the one asked for; nothing else changes, and the session invariant is kept |
| `Session.QuoteSession.ShowRoomSelection` | js/app.js:70-72 | always moves to the calculator screen; nothing else changes, and the session invariant is kept |
| `Session.QuoteSession.ShowLanding` | js/app.js:74-76 | always moves to the landing screen; nothing else changes, and the session invariant is kept |
| `Session.QuoteSession.ShowCalculator` | js/app.js:87-89 | always moves to the calculator screen; nothing else changes, and the session invariant is kept |
| `Session.QuoteSession.ShowContactForm` | js/app.js:78-85 | the screen becomes contact iff the stored min is positive, and otherwise stays; nothing else changes, and the session invariant is kept |
| `Session.QuoteSession.CalculatePrice` | js/app.js:130-180 | with no room nothing changes; otherwise the walls are stored, the price is recalculated (previous min and max kept when the total is not positive), the continue button is enabled iff all three walls are positive, and the invariant is restored |
| `Session.QuoteSession.SelectRoomType` | js/app.js:95-124 | records the room and its catalog name, then recalculates as `calculatePrice` does; the screen is untouched |
| `Session.QuoteSession.SubmitForm` | js/app.js:271-328 | accepted iff the form is acceptable; an accepted form moves to the thank-you screen, a rejected one leaves the screen; the session invariant is kept |
| `Session.ContactGateMeansQuoted` | js/app.js:78-85 | in a valid session a positive stored min means a room was chosen and min <= max |
| `Session.PositiveWallsOpenContact` | js/app.js:154-172 | in a valid session with a chosen room and a positive total, the stored min is at least that tier's floor, so the contact gate is open |
| `Session.StaleEstimateOpensContact` | js/app.js:176-179 | screen tier, walls 10/10/10, then walls 0/0/0: the continue button is disabled, yet `showContactForm`'s own gate still opens the contact screen, with zero linear feet and the old range 8400 to 12000 |
| `Session.EmptyEstimateKeepsCalculator` | js/app.js:78-85 | a fresh session with a room chosen and zero walls stays on the calculator screen |
| `Session.GlassFloorOpensContact` | js/app.js:95-124 | glass tier with walls 2/2/2 quotes 12000 to 20000 and opens the contact screen |

## Left out

- All DOM work is left out: showing and hiding screens, card highlighting, enabling inputs, focus, border colours, the button spinner, and the text of the price displays (`toFixed`, `toLocaleString`, `updateFinalPriceDisplay`). It is presentation with no decisions in it.
- The `setTimeout` delays in `showScreen`, `selectRoomType` and `submitForm` are left out; screen changes are immediate.
- `showScreen`'s check that the target element exists is left out; every `ScreenId` names a screen of the page.
- `alert` and `console.log` are output only. The alert's message text, built from each input's placeholder, is left out because the placeholders live in the page markup. The model reports the failing field instead.
- `submitForm`'s payload (timestamp, user agent, referrer) and `submitToServer` are left out. They are ambient browser calls and a commented-out network stub.
- Event-listener wiring, smooth scrolling, the Enter-key handler and the image placeholder are left out as page plumbing.
- Reading `event.currentTarget` is left out. The clicked card and the submit button are presentation; the room type is passed explicitly.
- `parseFloat(...) || 0` and IEEE-754 arithmetic are left out. Walls arrive as exact reals, with an empty or unparsable field already turned into 0, and prices are computed exactly.
- The unused `minPrice`, `maxPrice`, `minRate` and `maxRate` parameters of `selectRoomType` are left out. A room key outside the catalog, which makes the source throw at js/app.js:98, cannot be expressed, because room types are the three catalog keys.
- The `height` entry of `dimensions` is left out as a field. It is never edited, so it is the constant 8 inside `Pricing.Area`.
- The page markup is not part of this model. The continue button is taken to start disabled. The wall fields, whose values `calculatePrice` reads, are the method's parameters.
- The `projectDetails` and `timeline` form fields are left out. They are not validated and only feed the payload.
