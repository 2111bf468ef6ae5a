/**
 The page's interaction state and its event handlers: the navigation menu,
 the theme panel, the gallery modal, the star-rating selector and the two
 forms. Each handler is a method that changes the fields it touches and
 says what every other part of the state keeps.

 The page's own side effects are recorded rather than performed: the links
 handed to `window.open` in `openedLinks`, the texts shown with `alert` in
 `alerts`, and the review slides added to the review slider in `slides`.
 */
module Page {
  import opened Text
  import opened WhatsApp

  /** `document.body.style.overflow`: the empty string it starts as,
      `'hidden'` or `'auto'`. */
  datatype Overflow = Unset | Hidden | Auto

  /** One entry of the gallery's image table. */
  datatype GalleryImage = GalleryImage(src: string, title: string, alt: string)

  /** The gallery's image table, in display order. */
  const AllGalleryImages: seq<GalleryImage> := [
    GalleryImage("images/IMG_6202.JPG", "Custom Dining Table", "Wood Crafting 1"),
    GalleryImage("images/g-2.jpg", "Handcrafted Chair", "Wood Crafting 2"),
    GalleryImage("images/g-3.jpg", "Wooden Cabinet", "Wood Crafting 3"),
    GalleryImage("images/g-4.jpg", "Decorative Panel", "Wood Crafting 4"),
    GalleryImage("images/g-5.jpg", "Cutting Board", "Wood Crafting 5"),
    GalleryImage("images/g-6.jpg", "Photo Frame", "Wood Crafting 6"),
    GalleryImage("images/g-7.jpg", "Wooden Shelf", "Wood Crafting 7"),
    GalleryImage("images/g-8.jpg", "Jewelry Box", "Wood Crafting 8"),
    GalleryImage("images/g-9.jpg", "Serving Tray", "Wood Crafting 9"),
    GalleryImage("images/slide-1.jpg", "Wooden Coffee Table", "Wood Crafting 10"),
    GalleryImage("images/slide-2.jpg", "Custom Bookshelf", "Wood Crafting 11"),
    GalleryImage("images/slide-3.jpg", "Handcrafted Bench", "Wood Crafting 12"),
    GalleryImage("images/slide-4.jpg", "Wooden Wall Art", "Wood Crafting 13"),
    GalleryImage("images/slide-5.jpg", "Decorative Bowl", "Wood Crafting 14"),
    GalleryImage("images/slide-6.jpg", "Custom Headboard", "Wood Crafting 15"),
    GalleryImage("images/pic-1.png", "Wooden Clock", "Wood Crafting 16"),
    GalleryImage("images/pic-2.png", "Storage Box", "Wood Crafting 17"),
    GalleryImage("images/pic-3.png", "Decorative Vase", "Wood Crafting 18"),
    GalleryImage("images/pic-4.png", "Wooden Lamp", "Wood Crafting 19"),
    GalleryImage("images/about-img.jpg", "Workshop Showcase", "Wood Crafting 20")
  ]

  /** The rating label for each committed rating, 0 meaning "not rated". */
  const RatingTexts: seq<string> := ["Click to rate", "Poor", "Fair", "Good", "Very Good", "Excellent"]

  /** The values in the review form's fields. */
  datatype ReviewForm = ReviewForm(name: string, email: string, text: string)

  /** The values in the contact form's fields. */
  datatype ContactForm = ContactForm(name: string, email: string, phone: string,
                                     subject: string, message: string)

  /** A slide added to the review slider: the reviewer's name, the star
      string and the review text. */
  datatype ReviewSlide = ReviewSlide(name: string, stars: string, text: string)

  const InvalidEmailAlert: string := "Please enter a valid email address."
  const ReviewThanks: string :=
    "Thank you for your review! You will be redirected to WhatsApp to send your review."
  const ContactThanks: string :=
    "Thank you for your inquiry! You will be redirected to WhatsApp to send your message."

  /** The alert the review form shows for a refused submission. */
  function ReviewAlert(reason: Rejection): string {
    match reason
    case MissingFields => "Please fill in all fields and select a rating."
    case InvalidEmail => InvalidEmailAlert
  }

  /** The alert the contact form shows for a refused submission. */
  function ContactAlert(reason: Rejection): string {
    match reason
    case MissingFields => "Please fill in all required fields."
    case InvalidEmail => InvalidEmailAlert
  }

  class Page {
    // navigation menu and theme panel
    var navShow: bool          // the navbar's `show` class
    var ariaExpanded: bool     // the menu button's `aria-expanded` attribute
    var themeActive: bool      // the theme panel's `active` class

    // gallery modal
    var modalActive: bool      // the modal's `active` class
    var overflow: Overflow     // the body's overflow style
    var galleryGrid: seq<GalleryImage>

    // star-rating selector
    var currentRating: nat
    var stars: array<bool>     // each star's `active` class
    var ratingLabel: string

    // forms and what submitting them produced
    var reviewForm: ReviewForm
    var contactForm: ContactForm
    var slides: seq<ReviewSlide>
    var openedLinks: seq<string>
    var alerts: seq<string>

    /** The invariant every handler keeps: five stars, a committed rating
        of at most five whose label is shown, the menu button announcing
        exactly what the navbar shows, and background scrolling disabled
        exactly while the modal is open. */
    ghost predicate Valid()
      reads this
    {
      Consistent() && ratingLabel == RatingTexts[currentRating]
    }

    /** The invariant apart from the rating label, which handlers that
        change the committed rating bring up to date last. */
    ghost predicate Consistent()
      reads this
    {
      stars.Length == MaxRating && currentRating <= MaxRating &&
      ariaExpanded == navShow &&
      (modalActive <==> overflow == Hidden)
    }

    /** Exactly the stars before position `n` are highlighted. */
    ghost predicate StarsShow(n: nat)
      reads this, stars
    {
      forall k :: 0 <= k < stars.Length ==> stars[k] == (k < n)
    }

    /** The state of the menu and the theme panel. */
    ghost function Panels(): (bool, bool, bool)
      reads this
    {
      (navShow, ariaExpanded, themeActive)
    }

    /** The state of the gallery modal. */
    ghost function Gallery(): (bool, Overflow, seq<GalleryImage>)
      reads this
    {
      (modalActive, overflow, galleryGrid)
    }

    /** The state of the rating selector. */
    ghost function Rating(): (nat, seq<bool>, string)
      reads this, stars
    {
      (currentRating, stars[..], ratingLabel)
    }

    /** The forms and everything submitting them has produced. */
    ghost function Submissions(): (ReviewForm, ContactForm, seq<ReviewSlide>, seq<string>, seq<string>)
      reads this
    {
      (reviewForm, contactForm, slides, openedLinks, alerts)
    }

    /** The modal is closed and the page scrolls again. */
    ghost predicate Dismissed()
      reads this
    {
      !modalActive && overflow == Auto
    }

    /** The page as it loads: nothing open, nothing rated, empty forms. */
    constructor ()
      ensures Valid() && fresh(stars)
      ensures Panels() == (false, false, false)
      ensures Gallery() == (false, Unset, [])
      ensures currentRating == 0 && StarsShow(0) && ratingLabel == "Click to rate"
      ensures Submissions() == (ReviewForm("", "", ""), ContactForm("", "", "", "", ""), [], [], [])
    {
      navShow, ariaExpanded, themeActive := false, false, false;
      modalActive, overflow, galleryGrid := false, Unset, [];
      currentRating := 0;
      stars := new bool[MaxRating](_ => false);
      ratingLabel := RatingTexts[0];
      reviewForm := ReviewForm("", "", "");
      contactForm := ContactForm("", "", "", "", "");
      slides, openedLinks, alerts := [], [], [];
    }

    /** The visitor types into the review form. */
    method TypeReview(form: ReviewForm)
      requires Valid()
      modifies this
      ensures Valid() && stars == old(stars)
      ensures reviewForm == form
      ensures Panels() == old(Panels()) && Gallery() == old(Gallery()) && Rating() == old(Rating())
      ensures contactForm == old(contactForm) && slides == old(slides)
      ensures openedLinks == old(openedLinks) && alerts == old(alerts)
    {
      reviewForm := form;
    }

    /** The visitor types into the contact form. */
    method TypeContact(form: ContactForm)
      requires Valid()
      modifies this
      ensures Valid() && stars == old(stars)
      ensures contactForm == form
      ensures Panels() == old(Panels()) && Gallery() == old(Gallery()) && Rating() == old(Rating())
      ensures reviewForm == old(reviewForm) && slides == old(slides)
      ensures openedLinks == old(openedLinks) && alerts == old(alerts)
    {
      contactForm := form;
    }

    /** A click on the menu button flips the navbar and the button's
        `aria-expanded` together. */
    method OnMenuClick()
      requires Valid()
      modifies this
      ensures Valid() && stars == old(stars)
      ensures navShow == !old(navShow) && ariaExpanded == !old(ariaExpanded)
      ensures themeActive == old(themeActive)
      ensures Gallery() == old(Gallery()) && Rating() == old(Rating()) && Submissions() == old(Submissions())
    {
      var expanded := ariaExpanded;
      ariaExpanded := !expanded;
      navShow := !navShow;
    }

    /** A click on the theme button flips the theme panel. */
    method OnThemeToggleClick()
      requires Valid()
      modifies this
      ensures Valid() && stars == old(stars)
      ensures themeActive == !old(themeActive)
      ensures navShow == old(navShow) && ariaExpanded == old(ariaExpanded)
      ensures Gallery() == old(Gallery()) && Rating() == old(Rating()) && Submissions() == old(Submissions())
    {
      themeActive := !themeActive;
    }

    /** Scrolling closes the navbar and the theme panel. */
    method OnScroll()
      requires Valid()
      modifies this
      ensures Valid() && stars == old(stars)
      ensures Panels() == (false, false, false)
      ensures Gallery() == old(Gallery()) && Rating() == old(Rating()) && Submissions() == old(Submissions())
    {
      if navShow {
        navShow := false;
      }
      if themeActive {
        themeActive := false;
      }
      ariaExpanded := false;
    }

    /** Fills the gallery grid with the image table, one item per entry,
        in table order. */
    method LoadAllGalleryImages()
      requires Valid()
      modifies this
      ensures Valid() && stars == old(stars)
      ensures galleryGrid == AllGalleryImages
      ensures modalActive == old(modalActive) && overflow == old(overflow)
      ensures Panels() == old(Panels()) && Rating() == old(Rating()) && Submissions() == old(Submissions())
    {
      galleryGrid := [];
      for i := 0 to |AllGalleryImages|
        modifies this`galleryGrid
        invariant galleryGrid == AllGalleryImages[..i]
      {
        galleryGrid := galleryGrid + [AllGalleryImages[i]];
      }
    }

    /** "View all" opens the modal over a filled grid and stops the page
        behind it from scrolling. */
    method OnViewAllClick()
      requires Valid()
      modifies this
      ensures Valid() && stars == old(stars)
      ensures Gallery() == (true, Hidden, AllGalleryImages)
      ensures Panels() == old(Panels()) && Rating() == old(Rating()) && Submissions() == old(Submissions())
    {
      LoadAllGalleryImages();
      modalActive := true;
      overflow := Hidden;
    }

    /** The close button dismisses the modal. */
    method OnCloseGalleryClick()
      requires Valid()
      modifies this
      ensures Valid() && stars == old(stars)
      ensures Dismissed() && galleryGrid == old(galleryGrid)
      ensures Panels() == old(Panels()) && Rating() == old(Rating()) && Submissions() == old(Submissions())
    {
      modalActive := false;
      overflow := Auto;
    }

    /** A click inside the modal dismisses it when it landed on the
        backdrop itself rather than on the content. */
    method OnModalClick(onBackdrop: bool)
      requires Valid()
      modifies this
      ensures Valid() && stars == old(stars)
      ensures onBackdrop ==> Dismissed()
      ensures !onBackdrop ==> Gallery() == old(Gallery())
      ensures galleryGrid == old(galleryGrid)
      ensures Panels() == old(Panels()) && Rating() == old(Rating()) && Submissions() == old(Submissions())
    {
      if onBackdrop {
        modalActive := false;
        overflow := Auto;
      }
    }

    /** Escape dismisses the modal while it is open; any other key, or
        Escape with the modal closed, changes nothing. */
    method OnKeyDown(key: string)
      requires Valid()
      modifies this
      ensures Valid() && stars == old(stars)
      ensures key == "Escape" && old(modalActive) ==> Dismissed()
      ensures !(key == "Escape" && old(modalActive)) ==> Gallery() == old(Gallery())
      ensures galleryGrid == old(galleryGrid)
      ensures Panels() == old(Panels()) && Rating() == old(Rating()) && Submissions() == old(Submissions())
    {
      if key == "Escape" && modalActive {
        modalActive := false;
        overflow := Auto;
      }
    }

    /** Highlights exactly the stars before position `rating`. */
    method HighlightStars(rating: nat)
      modifies stars
      ensures StarsShow(rating)
    {
      var index := 0;
      while index < stars.Length
        invariant 0 <= index <= stars.Length
        invariant forall k :: 0 <= k < index ==> stars[k] == (k < rating)
      {
        stars[index] := index < rating;
        index := index + 1;
      }
    }

    /** Highlights exactly the stars of the committed rating. */
    method UpdateStars()
      modifies stars
      ensures StarsShow(currentRating)
    {
      HighlightStars(currentRating);
    }

    /** Shows the label of the committed rating. */
    method UpdateRatingText()
      requires Consistent()
      modifies this`ratingLabel
      ensures Valid() && ratingLabel == RatingTexts[currentRating]
    {
      ratingLabel := RatingTexts[currentRating];
    }

    /** A click on star `index` commits the rating `index + 1` and shows it. */
    method OnStarClick(index: nat)
      requires Valid() && index < stars.Length
      modifies this, stars
      ensures Valid() && stars == old(stars)
      ensures currentRating == index + 1 && StarsShow(index + 1)
      ensures ratingLabel == RatingTexts[index + 1]
      ensures Panels() == old(Panels()) && Gallery() == old(Gallery()) && Submissions() == old(Submissions())
    {
      currentRating := index + 1;
      UpdateStars();
      UpdateRatingText();
    }

    /** Hovering over star `index` previews the rating `index + 1` without
        committing it. */
    method OnStarEnter(index: nat)
      requires Valid() && index < stars.Length
      modifies stars
      ensures Valid()
      ensures StarsShow(index + 1)
    {
      HighlightStars(index + 1);
    }

    /** Leaving the rating control shows the committed rating again. */
    method OnRatingLeave()
      requires Valid()
      modifies stars
      ensures Valid()
      ensures StarsShow(currentRating)
    {
      UpdateStars();
    }

    /** Adds a slide for a new review to the review slider. */
    method AddNewReview(name: string, email: string, text: string, rating: nat)
      requires rating <= MaxRating
      modifies this`slides
      ensures slides == old(slides) + [ReviewSlide(name, Stars(rating), text)]
    {
      slides := slides + [ReviewSlide(name, Stars(rating), text)];
    }

    /** What the review handler does once the outcome is known. A refused
        submission only shows its alert. A sent one opens the deep link,
        thanks the visitor, adds the review to the slider, empties the form
        and clears the rating. */
    method ApplyReviewOutcome(o: ReviewOutcome)
      requires Valid()
      requires o.ReviewSent? ==> o.review.rating <= MaxRating
      modifies this, stars
      ensures Valid() && stars == old(stars)
      ensures o.ReviewRejected? ==>
                alerts == old(alerts) + [ReviewAlert(o.reason)] && openedLinks == old(openedLinks) &&
                slides == old(slides) && reviewForm == old(reviewForm) && Rating() == old(Rating())
      ensures o.ReviewSent? ==>
                openedLinks == old(openedLinks) + [o.url] && alerts == old(alerts) + [ReviewThanks] &&
                slides == old(slides) + [ReviewSlide(o.review.name, Stars(o.review.rating), o.review.text)] &&
                reviewForm == ReviewForm("", "", "") &&
                currentRating == 0 && StarsShow(0) && ratingLabel == "Click to rate"
      ensures contactForm == old(contactForm)
      ensures Panels() == old(Panels()) && Gallery() == old(Gallery())
    {
      match o {
        case ReviewRejected(reason) =>
          alerts := alerts + [ReviewAlert(reason)];
        case ReviewSent(url, review) =>
          ReviewSentEffects(url, review);
      }
    }

    /** The effect of a sent review: the deep link is opened, the visitor
        thanked, the review added to the slider, the form emptied and the
        rating cleared. */
    method ReviewSentEffects(url: string, review: Review)
      requires Valid() && review.rating <= MaxRating
      modifies this`openedLinks, this`alerts, this`slides, this`reviewForm,
               this`currentRating, this`ratingLabel, stars
      ensures Valid()
      ensures openedLinks == old(openedLinks) + [url] && alerts == old(alerts) + [ReviewThanks]
      ensures slides == old(slides) + [ReviewSlide(review.name, Stars(review.rating), review.text)]
      ensures reviewForm == ReviewForm("", "", "")
      ensures currentRating == 0 && StarsShow(0) && ratingLabel == "Click to rate"
    {
      openedLinks := openedLinks + [url];
      alerts := alerts + [ReviewThanks];
      AddNewReview(review.name, review.email, review.text, review.rating);
      reviewForm := ReviewForm("", "", "");
      currentRating := 0;
      UpdateStars();
      UpdateRatingText();
    }

    /** Submitting the review form: the decision of `SubmitReview` on the
        form's fields and the committed rating, then its effect on the page. */
    method OnReviewSubmit(date: string, time: string, encode: string -> string)
      requires Valid()
      modifies this, stars
      ensures Valid() && stars == old(stars)
      ensures var o := SubmitReview(old(reviewForm.name), old(reviewForm.email), old(reviewForm.text),
                                    old(currentRating), date, time, encode);
              (o.ReviewRejected? ==>
                alerts == old(alerts) + [ReviewAlert(o.reason)] && openedLinks == old(openedLinks) &&
                slides == old(slides) && reviewForm == old(reviewForm) && Rating() == old(Rating())) &&
              (o.ReviewSent? ==>
                openedLinks == old(openedLinks) + [o.url] && alerts == old(alerts) + [ReviewThanks] &&
                slides == old(slides) + [ReviewSlide(o.review.name, Stars(o.review.rating), o.review.text)] &&
                reviewForm == ReviewForm("", "", "") &&
                currentRating == 0 && StarsShow(0) && ratingLabel == "Click to rate")
      ensures contactForm == old(contactForm)
      ensures Panels() == old(Panels()) && Gallery() == old(Gallery())
    {
      var o := SubmitReview(reviewForm.name, reviewForm.email, reviewForm.text,
                            currentRating, date, time, encode);
      ApplyReviewOutcome(o);
    }

    /** What the contact handler does once the outcome is known. A refused
        submission only shows its alert; a sent one opens the deep link,
        thanks the visitor and empties the form. */
    method ApplyContactOutcome(o: ContactOutcome)
      requires Valid()
      modifies this
      ensures Valid() && stars == old(stars)
      ensures o.ContactRejected? ==>
                alerts == old(alerts) + [ContactAlert(o.reason)] && openedLinks == old(openedLinks) &&
                contactForm == old(contactForm)
      ensures o.ContactSent? ==>
                openedLinks == old(openedLinks) + [o.url] && alerts == old(alerts) + [ContactThanks] &&
                contactForm == ContactForm("", "", "", "", "")
      ensures reviewForm == old(reviewForm) && slides == old(slides)
      ensures Panels() == old(Panels()) && Gallery() == old(Gallery()) && Rating() == old(Rating())
    {
      match o {
        case ContactRejected(reason) =>
          alerts := alerts + [ContactAlert(reason)];
        case ContactSent(url) =>
          openedLinks := openedLinks + [url];
          alerts := alerts + [ContactThanks];
          contactForm := ContactForm("", "", "", "", "");
      }
    }

    /** Submitting the contact form: the decision of `SubmitContact` on
        the form's fields, then its effect on the page. */
    method OnContactSubmit(date: string, time: string, encode: string -> string)
      requires Valid()
      modifies this
      ensures Valid() && stars == old(stars)
      ensures var f := old(contactForm);
              var o := SubmitContact(f.name, f.email, f.phone, f.subject, f.message, date, time, encode);
              (o.ContactRejected? ==>
                alerts == old(alerts) + [ContactAlert(o.reason)] && openedLinks == old(openedLinks) &&
                contactForm == old(contactForm)) &&
              (o.ContactSent? ==>
                openedLinks == old(openedLinks) + [o.url] && alerts == old(alerts) + [ContactThanks] &&
                contactForm == ContactForm("", "", "", "", ""))
      ensures reviewForm == old(reviewForm) && slides == old(slides)
      ensures Panels() == old(Panels()) && Gallery() == old(Gallery()) && Rating() == old(Rating())
    {
      var f := contactForm;
      var o := SubmitContact(f.name, f.email, f.phone, f.subject, f.message, date, time, encode);
      ApplyContactOutcome(o);
    }
  }
}
