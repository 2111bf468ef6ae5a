# S P CRAFTWOOD page script, modelled in Dafny

The S P CRAFTWOOD website is a static page. Its script, `js/script.js`, does
two kinds of work, and this project models both:

* **Submitting a review or an enquiry.** The review form and the contact
  form trim their fields and refuse a submission with a missing field, or
  a review with no star rating. They check the e-mail address against
  `^[^\s@]+@[^\s@]+\.[^\s@]+$` and fill a fixed text template. Then they
  open a WhatsApp deep link `https://wa.me/918104316752?text=<encoded>`
  that carries the encoded text. This part is pure and is modelled as
  functions and lemmas:
  * `text.dfy`: JavaScript's `\s`, `trim` and `repeat`, plus template
    literals as alternating literal pieces and substitutions;
  * `email.dfy`: the e-mail expression;
  * `whatsapp.dfy`: the star string, both messages, the deep link and each
    form's decision.
* **The page's interactive state** (`page.dfy`). This covers:
  * the navigation menu and its `aria-expanded` button;
  * the theme panel, which closes on scroll;
  * the gallery modal and the body's `overflow` style;
  * the five-star rating selector, with a committed rating, per-star
    highlight and a label;
  * the two forms.

  The state is the class `Page`, with one method per event handler. Every
  handler keeps the invariant `Valid()`:
  * there are five stars;
  * the committed rating is at most five and its label is shown;
  * the menu button's `aria-expanded` matches the navbar's `show` class;
  * scrolling is disabled exactly while the modal is open.

  Each handler also says what it changes and what it leaves alone.

Side effects the page performs are recorded, not performed:
* every URL handed to `window.open` is appended to `openedLinks`;
* every text shown with `alert` is appended to `alerts`;
* every review added to the review slider is appended to `slides`.

The updates to the review and contact form fields made by the visitor's
typing are the methods `TypeReview` and `TypeContact`.

Some things differ between the two forms and are kept apart:
* The review handler labels ratings with `["", "Poor", …]`
  (`SubmitRatingTexts`).
* The rating selector labels them with `["Click to rate", "Poor", …]`
  (`RatingTexts`).
* The two forms' "missing field" alerts differ.

The source's `updateStars` repeats the loop of `highlightStars` with the
committed rating. The model defines that loop once (`HighlightStars`) and
has `UpdateStars` call it with `currentRating`.

## Model

| member | source | states |
|---|---|---|
| Text.SkipForward | js/script.js:247-249 | the first scan of `trim`: every position it passes holds whitespace, and it stops at the first non-whitespace character or at the end |
| Text.SkipBackward | js/script.js:247-249 | the second scan of `trim`: every position it passes holds whitespace, and it stops after a non-whitespace character or at the start of the kept text |
| Text.Trim | js/script.js:247-249 | `trim` returns an infix of its input that differs from it only by a whitespace prefix and suffix, and that neither starts nor ends with whitespace; the result is empty exactly when the input is all whitespace |
| Text.TrimIdempotent | js/script.js:348-352 | trimming an already trimmed field changes nothing |
| Text.TrimNoop | js/script.js:348-352 | a value that neither starts nor ends with whitespace is its own trim |
| Text.Repeat | js/script.js:265 | `c.repeat(n)` has length `n` and every character is `c` |
| Text.FillInOrder | js/script.js:267-281 | a filled template literal holds each substituted value verbatim, in order, without overlap |
| Text.InOrderContains | js/script.js:267-281 | each value of an in-order list occurs in the text |
| Text.FillSpan | js/script.js:267-281 | any run of consecutive pieces and values of a template literal occurs verbatim in the filled text |
| Text.TwoSlots | js/script.js:271 | two neighbouring substitutions, the literal between them and the start of the next literal stand together in the filled text |
| Text.FillEmptySlot | js/script.js:372 | filling an empty slot of a template literal inserts the new value at one position of the text and changes nothing else |
| Email.PatternIsWellFormed | js/script.js:257 | an address matched by the e-mail expression has no whitespace and exactly one `@`, with something before it and an inner `.` after it |
| Email.WellFormedMatchesPattern | js/script.js:257 | every such address is matched by the expression |
| Email.EmailPatternIff | js/script.js:360 | the expression accepts an address exactly when it has that shape |
| Email.NoAtRejected | js/script.js:257 | text without `@` is refused |
| Email.TwoAtsRejected | js/script.js:257 | text with two `@` is refused |
| Email.NoDotAfterAtRejected | js/script.js:257 | text with no `.` after its `@` is refused |
| Email.EmailExamples | js/script.js:360 | `a@b.c` is accepted; `ab.c`, `a@b@c.d`, `a@bc` and `a b@c.d` are refused |
| WhatsApp.Stars | js/script.js:265 | the star string has five glyphs: the first `r` are `★` and the rest `☆` |
| WhatsApp.Numeral | js/script.js:271 | a one-digit rating is written as its single decimal digit |
| WhatsApp.LinkRoundTrip | js/script.js:290 | the deep link gives back exactly the encoded text it was built from, and any URL with the fixed recipient prefix is the link of the text after that prefix |
| WhatsApp.LinkInjective | js/script.js:390 | different encoded messages give different links |
| WhatsApp.SubmitReviewDecision | js/script.js:243-290 | a review is refused for a missing field exactly when the name, e-mail or text is all whitespace or no rating is committed. Otherwise it is refused for its e-mail exactly when the trimmed address is malformed. Otherwise it is sent with the trimmed fields, as a link carrying the encoded review message |
| WhatsApp.SubmitContactDecision | js/script.js:345-390 | an enquiry is refused for a missing field exactly when the name, e-mail, phone or message is all whitespace, whatever the subject. Otherwise it is refused for its e-mail exactly when the trimmed address is malformed. Otherwise it is sent as a link carrying the encoded contact message |
| WhatsApp.ReviewMessageFields | js/script.js:267-281 | the review message holds, verbatim and in order: name, e-mail, rating digit, rating label, star string, review text, date and time |
| WhatsApp.ReviewMessageRating | js/script.js:271 | the review message contains `r/5 (label)` |
| WhatsApp.ReviewMessageQuote | js/script.js:275 | the review text stands in double quotes in the message |
| WhatsApp.ContactMessageFields | js/script.js:367-381 | the contact message holds, verbatim and in order: name, e-mail, phone, subject line, message, date and time; the message stands in double quotes |
| WhatsApp.SubjectLineShape | js/script.js:372 | a non-empty subject is rendered after its `📋 *Subject:* ` label, and an empty one as nothing |
| WhatsApp.SlotBetweenLineBreaks | js/script.js:371-373 | a value filled into a template slot that stands alone on its line is inserted between the two line breaks around it |
| WhatsApp.ContactSubjectOptional | js/script.js:371-374 | the message with a subject is the message without one, with the subject line inserted into the otherwise empty line between the phone and the message |
| WhatsApp.AshaRaoEmail | js/script.js:257 | `asha@example.com` passes the e-mail check |
| WhatsApp.AshaRaoReview | js/script.js:243-290 | a four-star review by Asha Rao with a valid address is sent, as a link carrying her encoded message |
| WhatsApp.AshaRaoMessage | js/script.js:267-281 | that message contains her name, her address, `4/5` and `★★★★☆` |
| Page.Page.constructor | js/script.js:186-188 | the page starts with the menu, the theme panel and the modal closed, rating 0 with no star lit and the label "Click to rate", and empty forms |
| Page.Page.TypeReview | js/script.js:246-249 | typing replaces the review form's values and nothing else |
| Page.Page.TypeContact | js/script.js:347-352 | typing replaces the contact form's values and nothing else |
| Page.Page.OnMenuClick | js/script.js:12-16 | a menu click flips the navbar's `show` and the button's `aria-expanded` together, so they still agree |
| Page.Page.OnThemeToggleClick | js/script.js:24-26 | a click on the theme button flips the theme panel and nothing else |
| Page.Page.OnScroll | js/script.js:30-34 | scrolling closes the navbar and the theme panel and sets `aria-expanded` to false |
| Page.Page.LoadAllGalleryImages | js/script.js:137-147 | the gallery grid holds one item per table entry, in table order |
| Page.Page.OnViewAllClick | js/script.js:151-157 | "view all" fills the grid, opens the modal and hides the body's overflow |
| Page.Page.OnCloseGalleryClick | js/script.js:160-165 | the close button leaves the modal inactive with overflow `auto` |
| Page.Page.OnModalClick | js/script.js:168-175 | a click on the backdrop leaves the modal inactive with overflow `auto`; a click on the content changes nothing |
| Page.Page.OnKeyDown | js/script.js:178-183 | Escape while the modal is open leaves it inactive with overflow `auto`; any other key, or Escape with the modal closed, changes nothing |
| Page.Page.HighlightStars | js/script.js:209-217 | exactly the stars before position `rating` are active |
| Page.Page.UpdateStars | js/script.js:219-227 | exactly the stars before the committed rating are active |
| Page.Page.UpdateRatingText | js/script.js:229-239 | the label shows the text of the committed rating |
| Page.Page.OnStarClick | js/script.js:194-198 | clicking star `i` commits rating `i + 1`, lights exactly the first `i + 1` stars and shows that rating's label |
| Page.Page.OnStarEnter | js/script.js:200-202 | hovering star `i` lights exactly the first `i + 1` stars and changes only the stars, so the committed rating is kept |
| Page.Page.OnRatingLeave | js/script.js:205-207 | leaving the rating control lights exactly the stars of the committed rating again |
| Page.Page.AddNewReview | js/script.js:310-331 | a slide with the reviewer's name, the star string of the rating and the review text is appended to the slider |
| Page.Page.ApplyReviewOutcome | js/script.js:251-305 | a refused review only shows its alert: no link, no slide, form and rating untouched. A sent one opens the link, thanks the visitor, adds the slide, empties the form and resets the rating to 0 with no star lit and "Click to rate" |
| Page.Page.ReviewSentEffects | js/script.js:292-305 | after a sent review the link is opened, the thanks shown, the slide added, the form emptied and the rating cleared, with no star lit and "Click to rate" |
| Page.Page.OnReviewSubmit | js/script.js:243-306 | submitting the review form has exactly the effect of the decision `SubmitReview` takes on the form's values and the committed rating |
| Page.Page.ApplyContactOutcome | js/script.js:354-399 | a refused enquiry only shows its alert; a sent one opens the link, thanks the visitor and empties the form |
| Page.Page.OnContactSubmit | js/script.js:345-400 | submitting the contact form has exactly the effect of the decision `SubmitContact` takes on the form's values |

## Left out

- The Swiper carousels and `swiper.update()` (js/script.js:45-81, 334-339): configuration of a third-party library whose code is not part of this model.
- The IntersectionObserver scroll reveal (js/script.js:84-104): viewport geometry and asynchronous callbacks.
- The colour swatches that set the CSS `--main-color` variable (js/script.js:37-42): styling only.
- `encodeURIComponent` is not part of this model. The submit operations take it as a parameter `encode`, and the properties are about the text before encoding and about the link built from whatever `encode` returns.
- The date and time stamps come from the clock in the visitor's locale (`toLocaleDateString`, `toLocaleTimeString`). They are parameters.
- `addNewReview`'s avatar, picked with `Math.random`, and the `innerHTML` markup it and `loadAllGalleryImages` build are not modelled. A slide is its name, star string and text; a gallery item is its table entry.
- `window.open`, `alert` and the review slider are recorded in `openedLinks`, `alerts` and `slides` rather than performed.
- `form.reset()` is modelled as emptying every field. A form whose markup gives fields default values would reset to those instead.
- The checks that each DOM element exists (`if (menuBtn && navbar)` and the like) are left out. The model assumes the page's markup is complete: five stars, none active, the label "Click to rate", `aria-expanded` false and the body's overflow unset at load.
- `OnModalClick` takes whether the click landed on the backdrop as a boolean rather than comparing event targets.
- Characters are Unicode scalar values, while JavaScript strings are UTF-16 code units. No property here depends on the length of an emoji, so the two agree on everything stated.
- When the subject is empty, the code leaves an empty line in the contact message where the subject line would be. An empty subject line is not dropped from the message, and the model follows the code (`WhatsApp.ContactSubjectOptional`).
