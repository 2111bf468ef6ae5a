/**
 The message formatter behind the review and contact forms: the star
 string, the two message templates, the WhatsApp deep link, and the
 validate-then-format decision each form's submit handler makes.

 `encodeURIComponent` is not modelled; every operation that needs it takes
 it as the parameter `encode`. The date and time stamps, which the page
 reads from the clock in the visitor's locale, are parameters too.
 */
module WhatsApp {
  import opened Text
  import opened Email

  /** Number of stars in a rating. */
  const MaxRating: nat := 5

  const FilledStar: char := '★'
  const EmptyStar: char := '☆'

  /** The labels the submit handler puts after `r/5`; index 0 is never used. */
  const SubmitRatingTexts: seq<string> := ["", "Poor", "Fair", "Good", "Very Good", "Excellent"]

  /** The recipient of every message, without the plus sign. */
  const WhatsAppNumber: string := "918104316752"

  /** Everything in a deep link before the encoded text. */
  const LinkPrefix: string := "https://wa.me/" + WhatsAppNumber + "?text="

  /** `'★'.repeat(r) + '☆'.repeat(5 - r)`: five glyphs, the first `r` filled. */
  function Stars(r: nat): (s: string)
    requires r <= MaxRating
    ensures |s| == MaxRating
    ensures forall k :: 0 <= k < r ==> s[k] == FilledStar
    ensures forall k :: r <= k < MaxRating ==> s[k] == EmptyStar
  {
    Repeat(FilledStar, r) + Repeat(EmptyStar, MaxRating - r)
  }

  /** The decimal text JavaScript gives a one-digit number. */
  function Numeral(r: nat): (d: string)
    requires r <= 9
    ensures |d| == 1 && d[0] as int == '0' as int + r
  {
    [('0' as int + r) as char]
  }

  /** The literal pieces of the review message's template literal. */
  const ReviewTemplate: seq<string> := [
    "🌟 *NEW REVIEW FOR S P CRAFTWOOD* 🌟\n\n👤 *Customer Name:* ",
    "\n📧 *Email:* ",
    "\n⭐ *Rating:* ",
    "/5 (",
    ")\n",
    "\n\n💬 *Review:*\n\"",
    "\"\n\n📅 *Date:* ",
    "\n🕒 *Time:* ",
    "\n\n---\n*This review was submitted through the S P CRAFTWOOD website*"
  ]

  /** What the review template substitutes, in order. */
  function ReviewValues(name: string, email: string, rating: nat, review: string,
                        date: string, time: string): seq<string>
    requires rating <= MaxRating
  {
    [name, email, Numeral(rating), SubmitRatingTexts[rating], Stars(rating), review, date, time]
  }

  /** The text of a review message; the fields are the trimmed form values. */
  function ReviewMessage(name: string, email: string, rating: nat, review: string,
                         date: string, time: string): string
    requires rating <= MaxRating
  {
    Fill(ReviewTemplate, ReviewValues(name, email, rating, review, date, time))
  }

  /** The subject line: `📋 *Subject:* ` and the subject, or nothing at all
      when the subject is empty. */
  function SubjectLine(subject: string): string {
    if subject != "" then Fill(["📋 *Subject:* ", ""], [subject]) else ""
  }

  /** The literal pieces of the contact message's template literal. */
  const ContactTemplate: seq<string> := [
    "📞 *NEW CONTACT INQUIRY - S P CRAFTWOOD* 📞\n\n👤 *Name:* ",
    "\n📧 *Email:* ",
    "\n📱 *Phone:* ",
    "\n",
    "\n\n💬 *Message:*\n\"",
    "\"\n\n📅 *Date:* ",
    "\n🕒 *Time:* ",
    "\n\n---\n*This inquiry was submitted through the S P CRAFTWOOD website*"
  ]

  /** What the contact template substitutes, in order. */
  function ContactValues(name: string, email: string, phone: string, subject: string,
                         message: string, date: string, time: string): seq<string>
  {
    [name, email, phone, SubjectLine(subject), message, date, time]
  }

  /** The text of a contact message; the fields are the trimmed form values. */
  function ContactMessage(name: string, email: string, phone: string, subject: string,
                          message: string, date: string, time: string): string
  {
    Fill(ContactTemplate, ContactValues(name, email, phone, subject, message, date, time))
  }

  /** The deep link that hands an encoded text to WhatsApp. */
  function Link(encoded: string): string
  {
    LinkPrefix + encoded
  }

  /** The encoded text carried by a deep link, if `url` is one. */
  function LinkText(url: string): (text: Option<string>)
  {
    if |LinkPrefix| <= |url| && url[..|LinkPrefix|] == LinkPrefix
    then Some(url[|LinkPrefix|..]) else None
  }

  datatype Option<T> = None | Some(value: T)

  /** Every link carries back the text it was built from, and every text a
      link carries rebuilds that link: the recipient and the prefix are fixed. */
  lemma LinkRoundTrip(encoded: string, url: string)
    ensures LinkText(Link(encoded)) == Some(encoded)
    ensures LinkText(url).Some? ==> Link(LinkText(url).value) == url
  {
    var url' := Link(encoded);
    assert url'[..|LinkPrefix|] == LinkPrefix && url'[|LinkPrefix|..] == encoded;
    if LinkText(url).Some? {
      assert url == url[..|LinkPrefix|] + url[|LinkPrefix|..];
    }
  }

  /** Two different encoded texts never give the same link. */
  lemma LinkInjective(a: string, b: string)
    requires Link(a) == Link(b)
    ensures a == b
  {
    LinkRoundTrip(a, Link(a));
    LinkRoundTrip(b, Link(b));
  }

  /** Why a submission was refused; each reason has its own alert. */
  datatype Rejection = MissingFields | InvalidEmail

  /** A review as the page shows it after a successful submission. */
  datatype Review = Review(name: string, email: string, text: string, rating: nat)

  datatype ReviewOutcome =
    | ReviewRejected(reason: Rejection)
    | ReviewSent(url: string, review: Review)

  datatype ContactOutcome =
    | ContactRejected(reason: Rejection)
    | ContactSent(url: string)

  /** The review submit handler's decision on the raw form values and the
      committed rating: missing fields or rating first, then the e-mail,
      then the message and its link. */
  function SubmitReview(rawName: string, rawEmail: string, rawText: string, rating: nat,
                        date: string, time: string, encode: string -> string): ReviewOutcome
    requires rating <= MaxRating
  {
    var name := Trim(rawName);
    var email := Trim(rawEmail);
    var text := Trim(rawText);
    if name == "" || email == "" || text == "" || rating == 0 then ReviewRejected(MissingFields)
    else if !MatchesEmailPattern(email) then ReviewRejected(InvalidEmail)
    else ReviewSent(Link(encode(ReviewMessage(name, email, rating, text, date, time))),
                    Review(name, email, text, rating))
  }

  /** A review is refused for a missing field exactly when a field holds
      nothing but whitespace or no rating is committed; otherwise it is
      refused for its e-mail exactly when the trimmed address is not
      well-formed; otherwise it is sent, as a link carrying the encoded
      message built from the trimmed fields. */
  lemma SubmitReviewDecision(rawName: string, rawEmail: string, rawText: string, rating: nat,
                             date: string, time: string, encode: string -> string)
    requires rating <= MaxRating
    ensures var o := SubmitReview(rawName, rawEmail, rawText, rating, date, time, encode);
            (o.ReviewRejected? && o.reason == MissingFields <==>
              AllWhitespace(rawName) || AllWhitespace(rawEmail) || AllWhitespace(rawText) || rating == 0) &&
            (o.ReviewRejected? && o.reason == InvalidEmail <==>
              !AllWhitespace(rawName) && !AllWhitespace(rawEmail) && !AllWhitespace(rawText) && rating != 0 &&
              !WellFormedEmail(Trim(rawEmail))) &&
            (o.ReviewSent? ==>
              o.review == Review(Trim(rawName), Trim(rawEmail), Trim(rawText), rating) &&
              LinkText(o.url) == Some(encode(ReviewMessage(Trim(rawName), Trim(rawEmail), rating,
                                                           Trim(rawText), date, time))))
  {
    EmailPatternIff(Trim(rawEmail));
    LinkRoundTrip(encode(ReviewMessage(Trim(rawName), Trim(rawEmail), rating, Trim(rawText), date, time)), "");
  }

  /** The contact submit handler's decision on the raw form values; the
      subject is the one optional field. */
  function SubmitContact(rawName: string, rawEmail: string, rawPhone: string, rawSubject: string,
                         rawMessage: string, date: string, time: string,
                         encode: string -> string): ContactOutcome
  {
    var name := Trim(rawName);
    var email := Trim(rawEmail);
    var phone := Trim(rawPhone);
    var subject := Trim(rawSubject);
    var message := Trim(rawMessage);
    if name == "" || email == "" || phone == "" || message == "" then ContactRejected(MissingFields)
    else if !MatchesEmailPattern(email) then ContactRejected(InvalidEmail)
    else ContactSent(Link(encode(ContactMessage(name, email, phone, subject, message, date, time))))
  }

  /** A contact request is refused for a missing field exactly when the
      name, e-mail, phone or message holds nothing but whitespace, whatever
      the subject; otherwise it is refused for its e-mail exactly when the
      trimmed address is not well-formed; otherwise it is sent, as a link
      carrying the encoded message built from the trimmed fields. */
  lemma SubmitContactDecision(rawName: string, rawEmail: string, rawPhone: string, rawSubject: string,
                              rawMessage: string, date: string, time: string, encode: string -> string)
    ensures var o := SubmitContact(rawName, rawEmail, rawPhone, rawSubject, rawMessage, date, time, encode);
            (o.ContactRejected? && o.reason == MissingFields <==>
              AllWhitespace(rawName) || AllWhitespace(rawEmail) || AllWhitespace(rawPhone) ||
              AllWhitespace(rawMessage)) &&
            (o.ContactRejected? && o.reason == InvalidEmail <==>
              !AllWhitespace(rawName) && !AllWhitespace(rawEmail) && !AllWhitespace(rawPhone) &&
              !AllWhitespace(rawMessage) && !WellFormedEmail(Trim(rawEmail))) &&
            (o.ContactSent? ==>
              LinkText(o.url) == Some(encode(ContactMessage(Trim(rawName), Trim(rawEmail), Trim(rawPhone),
                                                            Trim(rawSubject), Trim(rawMessage), date, time))))
  {
    EmailPatternIff(Trim(rawEmail));
    LinkRoundTrip(encode(ContactMessage(Trim(rawName), Trim(rawEmail), Trim(rawPhone),
                                        Trim(rawSubject), Trim(rawMessage), date, time)), "");
  }

  /** A review message holds, in this order and each verbatim: the name,
      the e-mail, the rating, its label, the star string, the review text,
      the date and the time. */
  lemma ReviewMessageFields(name: string, email: string, rating: nat, review: string,
                            date: string, time: string)
    requires rating <= MaxRating
    ensures InOrder(ReviewMessage(name, email, rating, review, date, time),
                    [name, email, Numeral(rating), SubmitRatingTexts[rating], Stars(rating),
                     review, date, time])
  {
    FillInOrder(ReviewTemplate, ReviewValues(name, email, rating, review, date, time));
  }

  /** The rating of a review message reads `r/5 (label)`. */
  lemma ReviewMessageRating(name: string, email: string, rating: nat, review: string,
                            date: string, time: string)
    requires rating <= MaxRating
    ensures Contains(ReviewMessage(name, email, rating, review, date, time),
                     Numeral(rating) + "/5 (" + SubmitRatingTexts[rating] + ")")
  {
    var t := ReviewTemplate;
    var v := ReviewValues(name, email, rating, review, date, time);
    TwoSlots(t, v, 2, 1);
    assert t[3] == "/5 (" && t[4][..1] == ")";
  }

  /** The review text of a review message stands in double quotes. */
  lemma ReviewMessageQuote(name: string, email: string, rating: nat, review: string,
                           date: string, time: string)
    requires rating <= MaxRating
    ensures Contains(ReviewMessage(name, email, rating, review, date, time), "\"" + review + "\"")
  {
    var t := ReviewTemplate;
    var v := ReviewValues(name, email, rating, review, date, time);
    var msg := Fill(t, v);
    FillSpan(t, v, 5, 6);
    var t5, t6 := t[5], t[6];
    assert t[5..7] == [t5, t6] && v[5..6] == [review];
    assert Fill(t[5..7], v[5..6]) == t5 + review + t6;
    ContainsMiddle(msg, t5, review, t6, |t5| - 1, 1);
    assert t5[|t5| - 1..] == "\"" && t6[..1] == "\"";
  }

  /** A contact message holds, in this order and each verbatim: the name,
      the e-mail, the phone, the subject line, the message, the date and
      the time; the message stands in double quotes. */
  lemma ContactMessageFields(name: string, email: string, phone: string, subject: string,
                             message: string, date: string, time: string)
    ensures var msg := ContactMessage(name, email, phone, subject, message, date, time);
            InOrder(msg, [name, email, phone, SubjectLine(subject), message, date, time]) &&
            Contains(msg, "\"" + message + "\"")
  {
    var t := ContactTemplate;
    var v := ContactValues(name, email, phone, subject, message, date, time);
    var msg := Fill(t, v);
    FillInOrder(t, v);
    FillSpan(t, v, 4, 5);
    assert t[4..6] == [t[4], t[5]] && v[4..5] == [v[4]];
    assert Fill(t[4..6], v[4..5]) == t[4] + v[4] + t[5];
    ContainsMiddle(msg, t[4], message, t[5], |t[4]| - 1, 1);
    assert t[4][|t[4]| - 1..] == "\"" && t[5][..1] == "\"";
  }

  /** A non-empty subject is rendered with its label; an empty one renders
      as nothing. */
  lemma SubjectLineShape(subject: string)
    ensures subject == "" ==> SubjectLine(subject) == ""
    ensures subject != "" ==> SubjectLine(subject) == "📋 *Subject:* " + subject
  {
    if subject != "" {
      var pieces := ["📋 *Subject:* ", ""];
      assert pieces[1..] == [""] && [subject][1..] == [];
      assert Fill(pieces[1..], [subject][1..]) == "";
    }
  }

  /** In any seven-slot template whose fourth slot sits between two line
      breaks, filling that slot inserts its text between those breaks. */
  lemma SlotBetweenLineBreaks(t: seq<string>, v0: seq<string>, x: string)
    requires |t| == 8 && |v0| == 7 && v0[3] == ""
    requires t[3] == "\n" && t[4] != "" && t[4][0] == '\n'
    ensures var blank := Fill(t, v0);
            exists k :: 0 < k < |blank| && blank[k - 1] == '\n' && blank[k] == '\n' &&
              Fill(t, v0[3 := x]) == blank[..k] + x + blank[k..]
  {
    FillEmptySlot(t, v0, 3, x);
    assert t[3][|t[3]| - 1] == '\n';
  }

  /** Leaving the subject out leaves its line empty: the message with a
      subject is the message without one with the subject line inserted
      between two line breaks, and nothing else differs. */
  lemma ContactSubjectOptional(name: string, email: string, phone: string, subject: string,
                               message: string, date: string, time: string)
    ensures var blank := ContactMessage(name, email, phone, "", message, date, time);
            exists k :: 0 < k < |blank| && blank[k - 1] == '\n' && blank[k] == '\n' &&
              ContactMessage(name, email, phone, subject, message, date, time) ==
              blank[..k] + SubjectLine(subject) + blank[k..]
  {
    var t := ContactTemplate;
    var v0 := ContactValues(name, email, phone, "", message, date, time);
    assert t[3] == "\n" && t[4][0] == '\n';
    var blank := Fill(t, v0);
    SlotBetweenLineBreaks(t, v0, SubjectLine(subject));
    var k :| 0 < k < |blank| && blank[k - 1] == '\n' && blank[k] == '\n' &&
             Fill(t, v0[3 := SubjectLine(subject)]) == blank[..k] + SubjectLine(subject) + blank[k..];
    assert v0[3 := SubjectLine(subject)] == ContactValues(name, email, phone, subject, message, date, time);
    assert blank == ContactMessage(name, email, phone, "", message, date, time);
    assert ContactMessage(name, email, phone, subject, message, date, time) ==
           blank[..k] + SubjectLine(subject) + blank[k..];
  }

  /** The address of the example below passes the check. */
  lemma AshaRaoEmail()
    ensures MatchesEmailPattern("asha@example.com")
  {
    var email := "asha@example.com";
    assert email[4] == '@' && email[12] == '.';
    assert email[..4] == "asha" && email[5..12] == "example" && email[13..] == "com";
    assert Run(email[..4]) && Run(email[5..12]) && Run(email[13..]);
  }

  /** A worked example: Asha Rao's four-star review is
      sent, as a deep link to the fixed recipient that carries her encoded
      message. */
  lemma AshaRaoReview(name: string, email: string, text: string,
                      date: string, time: string, encode: string -> string)
    requires name == "Asha Rao" && email == "asha@example.com" && text == "Great craftsmanship"
    ensures var o := SubmitReview(name, email, text, 4, date, time, encode);
            o.ReviewSent? && LinkText(o.url) == Some(encode(ReviewMessage(name, email, 4, text, date, time)))
  {
    TrimNoop(name);
    TrimNoop(email);
    TrimNoop(text);
    AshaRaoEmail();
    SubmitReviewDecision(name, email, text, 4, date, time, encode);
  }

  /** The message of that example holds her name, her address, `4/5` and
      four filled stars followed by one empty one. */
  lemma AshaRaoMessage(name: string, email: string, text: string, date: string, time: string)
    requires name == "Asha Rao" && email == "asha@example.com" && text == "Great craftsmanship"
    ensures var msg := ReviewMessage(name, email, 4, text, date, time);
            Contains(msg, name) && Contains(msg, email) &&
            Contains(msg, "4/5") && Contains(msg, "★★★★☆")
  {
    var msg := ReviewMessage(name, email, 4, text, date, time);
    ReviewMessageFields(name, email, 4, text, date, time);
    ReviewMessageRating(name, email, 4, text, date, time);
    var parts := [name, email, Numeral(4), SubmitRatingTexts[4], Stars(4), text, date, time];
    InOrderContains(msg, parts, 0);
    InOrderContains(msg, parts, 1);
    InOrderContains(msg, parts, 4);
    var stars := Stars(4);
    assert stars == "★★★★☆" by {
      forall k | 0 <= k < 5 ensures stars[k] == "★★★★☆"[k] {}
    }
    var rating := Numeral(4) + "/5 (" + SubmitRatingTexts[4] + ")";
    ContainsInfix(msg, rating, 0, 3);
    assert rating[..3] == "4/5";
  }
}
