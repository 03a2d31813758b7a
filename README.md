# Buli marketing site: a verified model of its logic

Buli is a workout-planning app. Its marketing site is a Next.js application plus
a static landing page (`script.js`). Almost all of it is presentation. This
project models the parts that make decisions, as Dafny:

- **The subscription endpoint** (`POST /api/subscribe`). It validates the
  email, runs an optional hCaptcha check, picks one of two confirmation mails,
  sends it through Resend and maps every failure to a JSON response. The
  captcha verifier and the mail provider are oracles: the handler receives what
  they would do (reply, or throw) and returns the list of outbound calls it
  made, in order.
- **The email capture form.** It has four states (idle, loading, success,
  error), two local checks before the request, and the settling of the request
  on an abstract fetch outcome (a response with a JSON body or not, or a throw).
- **Two helpers.** `preserveUTM` copies the whitelisted campaign parameters onto
  a link. `detectOS`, `isMobile`, `getAppStoreLink` and `getDeepLink` classify
  the browser and pick a store link.
- **The small UI state machines**:
  - the FAQ accordion;
  - the landing page's navbar, clock, stat counters, logo easter egg, cursor
    trail and testimonial carousel;
  - the phone mock-up's typing cascade and tab bar;
  - the device preview's tab bar;
  - the import-program demo's step sequencer and exercise counter;
  - the scroll marquee's frame loop;
  - the two mobile menus.

Components that update state in place are classes. Their handlers are methods
with `modifies` clauses, and each class's invariant is a `Valid()` predicate.
Most methods are tied to a pure function that the lemmas reason about, for
example `Utm.PreserveUtm` to `Utm.Preserved`, `Faq.Accordion.ToggleItem` to
`Faq.Toggled`, `ScrollMarquee.Marquee.Frame` to `ScrollMarquee.NextFrame`, and
`SiteScript.StatCounters.Observe` to `SiteScript.NewlyCounted`.

These are modelled as discrete steps:
- a timer firing;
- an interval tick;
- an animation frame;
- an awaited delay finishing;
- an IntersectionObserver batch.

Where the model sits in the page:
- The module `JsCore` holds the JavaScript semantics the other modules share:
  - truthiness of a possibly absent string, and `a || b`;
  - `String.prototype.includes`;
  - ASCII case folding for `/…/i` patterns;
  - `toString` of a natural number, and `padStart`;
  - the truncating `%` of integers.
- Scroll positions are whole pixels in `script.js` and in the mobile pill
  header.
- The scroll marquee's lengths and times are reals. JavaScript's `%` on numbers
  is modelled exactly by `ScrollMarquee.FloatRem`: the dividend less the
  divisor times the truncated quotient, so its result has the sign of the
  dividend.

Where the code and its documentation could be read differently, the model
follows the code.

On the server side:
- The mail client is constructed unconditionally when the module loads
  (`route.ts:4`), so the `if (resend)` guard never skips the send. Every
  request that passes validation and the captcha gate attempts a send, whether
  or not an API key is configured.
- With a secret configured but no token, the captcha check is skipped and the
  mail is sent.

On the client:
- The captcha widget is reset after every request that reaches the network,
  when a site key is configured. That includes a successful one, because the
  reset runs in the same handler before the form re-renders without the
  widget.
- Toggling a FAQ item twice restores that item's own state. The whole
  accordion is restored only when nothing, or that item, was open before. If
  another item was open, it stays closed.
- The testimonial carousel starts with no testimonials. On an empty carousel
  `next`/`prev` divide by a length of zero and the index becomes NaN.
- The scroll marquee's reduced-motion branch only logs a message, so autoplay
  keeps running under reduced motion.

## Model

| member | source | states |
|---|---|---|
| SubscribeRoute.IsValidEmail | app/api/subscribe/route.ts:15 | an email is accepted exactly when it is present and contains '@' |
| SubscribeRoute.SelectTemplate | app/api/subscribe/route.ts:42-58 | only the exact context "android_waitlist" gives the waitlist subject and a body linking to the site's /blog; every other context, a missing one included, gives the newsletter subject and a /download link; an unset site URL renders as "undefined" |
| SubscribeRoute.WaitlistSubjectIff | app/api/subscribe/route.ts:42-44 | the chosen subject is the waitlist subject if and only if the context is "android_waitlist" |
| SubscribeRoute.ConfirmationMail | app/api/subscribe/route.ts:60-65 | the mail goes to exactly the submitted address, from CONTACT_EMAIL when it is set and non-empty and from no-reply@buli.app otherwise, with the waitlist subject iff the context is the waitlist tag |
| SubscribeRoute.Post | app/api/subscribe/route.ts:4-79 | an unparsable body gives 500 with no calls; an invalid email gives 400 "Invalid email address" with no calls; the verifier is called iff the email is valid, a secret is set and a token was sent; a failed verification gives 400 "Captcha verification failed" and no send; a send happens iff validation passed and, when the gate was open, verification succeeded; the mail is the confirmation mail; calls are at most one verification then at most one send; 200 with the thanks payload iff the send was delivered; 500 iff the body, the verifier or the send threw |
| EmailCapture.SettledStatus | components/EmailCapture.tsx:52-69 | a resolved request ends in success exactly when the response is ok and its body is JSON; everything else is error |
| EmailCapture.SettledMessage | components/EmailCapture.tsx:52-69 | an ok response shows its `message` or the default thanks; a non-ok response shows its `error` or the default retry text; a throw, including a body that is not JSON, shows the network error; the message is never empty |
| EmailCapture.FormShowsServerText | components/EmailCapture.tsx:54-65 | for every response the endpoint can give, the form shows the endpoint's own text and reaches success exactly on its 200 |
| EmailCapture.Form.constructor | components/EmailCapture.tsx:18-21 | the form starts idle with an empty email and message, no token, no requests |
| EmailCapture.Form.SuccessIsTerminal | components/EmailCapture.tsx:85-98 | in success the input and button are disabled, the captcha is gone and no request is in flight |
| EmailCapture.Form.ButtonLabel | components/EmailCapture.tsx:94 | the button reads "Sending..." exactly while loading, otherwise its configured text |
| EmailCapture.Form.TypeEmail | components/EmailCapture.tsx:82 | typing, possible only while enabled, sets the email |
| EmailCapture.Form.CaptchaVerified | components/EmailCapture.tsx:102 | the widget's verification, possible only while it is rendered, stores the token |
| EmailCapture.Form.Submit | components/EmailCapture.tsx:24-50 | an email without '@' gives error "Please enter a valid email address" and no request; then, with a site key and no token, error "Please complete the captcha" and no request; otherwise loading and exactly one request carrying email, context and token; every posted request passed both checks |
| EmailCapture.Form.Settle | components/EmailCapture.tsx:52-72 | status and message are the settled ones; success clears email and token; error keeps both; the captcha is reset once iff a site key is configured |
| Utm.Get | lib/utils.ts:34 | the value of the first pair with the key, or none exactly when no pair has it |
| Utm.Separator | lib/utils.ts:39 | '&' iff the url already contains '?', else '?' |
| Utm.SerializeEmpty | lib/utils.ts:38 | the serialized parameters are empty exactly when no parameter is carried |
| Utm.PreserveUtm | lib/utils.ts:26-44 | the loop over the whitelist computes `Preserved(url, search)` |
| Utm.PreservedProperties | lib/utils.ts:27-43 | without a window, or with nothing carried, the url comes back unchanged; the url is always a prefix of the result; otherwise the result is url, separator, serialized parameters |
| Utm.CarriedFromSound | lib/utils.ts:33-36 | only whitelisted keys are carried, each with the first value the query gives it, never an empty one |
| Utm.CarriedFromComplete | lib/utils.ts:33-36 | every whitelisted key with a non-empty value is carried |
| Utm.CarriedFromOrdered | lib/utils.ts:33-36 | carried parameters appear in whitelist order |
| Utm.CarriedExactly | lib/utils.ts:33-36 | a pair is carried iff its key is whitelisted and the query's first value for it is that non-empty value |
| Utm.TestCaseSourceAndMedium | tests/unit/utils.test.ts:31-44 | source and medium are appended after '?' in whitelist order |
| OsDetect.DetectOS | lib/os-detect.ts:4-36 | without a window the answer is Unknown; otherwise the if-chain equals the first matching rule of the priority table iOS, Android, Mac, Windows, Linux |
| OsDetect.MobileDecidedByUserAgent | lib/os-detect.ts:7-17 | an iOS or Android answer depends on the user agent only; the platform cannot change it |
| OsDetect.DesktopDecidedByPlatform | lib/os-detect.ts:20-35 | once the user agent names no mobile OS, the answer depends on the platform only |
| OsDetect.ExampleUpperCaseAndroid | lib/os-detect.ts:16 | the Android test ignores case: "ANDROID" is Android |
| OsDetect.ExampleUpperCaseIPhone | lib/os-detect.ts:11 | the iOS test does not ignore case: "IPHONE" is not iOS |
| OsDetect.ExampleLowerCaseMac | lib/os-detect.ts:21 | the platform tests do not ignore case: platform "mac" is Unknown |
| OsDetect.ExampleMacBeforeWindows | lib/os-detect.ts:21-28 | Mac is tested before Windows |
| OsDetect.ExampleIPhoneOnWindows | lib/os-detect.ts:11-28 | the user agent outranks the platform |
| OsDetect.AnyTokenExists | lib/os-detect.ts:11 | a pattern of alternatives matches iff one of its alternatives occurs |
| OsDetect.IsMobileIff | lib/os-detect.ts:41-46 | isMobile is true iff there is a window and the user agent contains one of the eight tokens, ignoring case |
| OsDetect.DetectedMobileIsMobile | lib/os-detect.ts:11-17 | whatever detectOS calls iOS or Android, isMobile calls mobile |
| OsDetect.GetAppStoreLink | lib/os-detect.ts:51-60 | Android gets the Play Store URL; iOS and every other OS get the App Store URL |
| OsDetect.GetDeepLink | lib/os-detect.ts:65-67 | always "buli://" |
| Faq.Toggled | components/FAQ.tsx:19-21 | the result is closed iff the toggled item was the open one; otherwise exactly the toggled item is open |
| Faq.ToggleTwice | components/FAQ.tsx:20 | two toggles restore the item's own state; they restore the whole state when nothing or that item was open; they leave everything closed when another item was open |
| Faq.Accordion.constructor | components/FAQ.tsx:17 | the first item starts open |
| Faq.Accordion.AtMostOneOpen | components/FAQ.tsx:33 | two open items are the same item |
| Faq.Accordion.ToggleItem | components/FAQ.tsx:19-21 | a click applies `Toggled` |
| Faq.Accordion.HandleKeyDown | components/FAQ.tsx:23-28 | Enter and Space toggle and suppress the default action; other keys change nothing |
| Faq.KeyboardScenario | tests/e2e/accessibility.spec.ts:71-97 | on a fresh accordion, Enter closes the first item and Space opens it again |
| SiteScript.Navbar.OnScroll | script.js:6-12 | `scrolled` is set iff the scroll position is above 50 |
| SiteScript.Navbar.ClickHamburger | script.js:15-18 | the menu and the hamburger flip together |
| SiteScript.Navbar.ClickNavLink | script.js:21-26 | a nav-link click deactivates both |
| SiteScript.Navbar.KeyDown | script.js:216-222 | Escape deactivates both; other keys change nothing |
| SiteScript.TwoDigits | script.js:190-191 | two decimal digits that read back as the number |
| SiteScript.FormatTime | script.js:190-192 | `HH:MM`: five characters, a colon in the middle, digits elsewhere, and the halves read back as hour and minute |
| SiteScript.PhoneClock.UpdateTime | script.js:186-194 | with a time element its text becomes `FormatTime`; without one nothing changes |
| SiteScript.NewlyCountedFresh | script.js:62-66 | a batch starts only elements that are in view and not yet counted, each once |
| SiteScript.StatCounters.Observe | script.js:60-68 | the batch appends `NewlyCounted` to the animations and marks every element in view as counted; no element is ever animated twice |
| SiteScript.LogoStep | script.js:261-274 | a click raises the count; on reaching five it pulses and resets |
| SiteScript.AfterClicksClosedForm | script.js:258-275 | after k clicks the count is k mod 5 and the page has pulsed k div 5 times |
| SiteScript.LogoEasterEgg.ClickLogo | script.js:258-275 | the count is the clicks mod 5, and the pulse count rises exactly on every fifth click |
| SiteScript.LastN | script.js:340-343 | the last n elements of a sequence, which is what a bounded push and shift keep |
| SiteScript.TrailIsRecentHeroPoints | script.js:334-345 | the trail is exactly the last ten points of moves over the hero, in arrival order |
| SiteScript.CursorTrail.OnMouseMove | script.js:337-345 | after any move the trail is the last ten hero points; a move outside the hero leaves it unchanged |
| SiteScript.NextIndex | script.js:403-406 | on n > 0 testimonials the next index stays in [0, n) and wraps from n-1 to 0; on none, or from NaN, it is NaN |
| SiteScript.PrevIndex | script.js:408-411 | on n > 0 testimonials the previous index stays in [0, n) and wraps from 0 to n-1; on none, or from NaN, it is NaN |
| SiteScript.PrevUndoesNext | script.js:403-411 | prev undoes next and next undoes prev |
| SiteScript.NextTimesRotates | script.js:403-406 | within one lap, k presses of next move k places round the ring |
| SiteScript.FullLap | script.js:403-406 | n presses of next on n testimonials come back to the start |
| SiteScript.TestimonialCarousel.constructor | script.js:393-397 | the index starts at 0 with no testimonials |
| SiteScript.TestimonialCarousel.Next | script.js:403-406 | applies `NextIndex` |
| SiteScript.TestimonialCarousel.Prev | script.js:408-411 | applies `PrevIndex` |
| SiteScript.FreshCarouselNext | script.js:393-406 | on a fresh carousel next makes the index NaN |
| PhoneMockup.Advance | components/PhoneMockup.tsx:14 | a tick adds one below the text length and holds at it |
| PhoneMockup.AdvanceTimesBounded | components/PhoneMockup.tsx:9-14 | from within the text, k ticks reach min(i + k, length): never past the length |
| PhoneMockup.Typed | components/PhoneMockup.tsx:17 | the typed text is a prefix of the line, of length min(i, length) |
| PhoneMockup.Mockup.constructor | components/PhoneMockup.tsx:31-33 | unmounted, not typing, dashboard tab, all counters at 0 |
| PhoneMockup.Mockup.View | components/PhoneMockup.tsx:79-85 | only the spinner renders before mount |
| PhoneMockup.Mockup.CtaMeansAllTyped | components/PhoneMockup.tsx:188-224 | visible download buttons mean the mock-up is mounted on the dashboard tab, typing has started and all three lines read in full |
| PhoneMockup.Mockup.Mount | components/PhoneMockup.tsx:35-37 | mounting keeps the cascade invariant |
| PhoneMockup.Mockup.StartTyping | components/PhoneMockup.tsx:59-71 | starting keeps the cascade invariant |
| PhoneMockup.Mockup.Tick | components/PhoneMockup.tsx:8-18 | a hook whose start condition is false does nothing; under reduced motion it jumps to the full length; otherwise it advances by one; the other counters are untouched and line k+1 starts only after line k is complete |
| PhoneMockup.Mockup.SelectTab | components/PhoneMockup.tsx:677-734 | each tab button selects its own tab; any tab but the dashboard hides the landing content and its download buttons |
| PhoneMockup.TabSwitchScenario | components/PhoneMockup.tsx:188-224 | with all lines typed the buttons show on the dashboard, vanish on the history tab and return on the dashboard |
| PhoneMockup.ReducedMotionScenario | components/PhoneMockup.tsx:74-76 | under reduced motion one step per line shows the download buttons |
| DevicePreview.HeaderTextsDistinct | components/DevicePreview.tsx:248-252 | the three views have distinct non-empty headers, and 'more' has none |
| DevicePreview.Preview.constructor | components/DevicePreview.tsx:20-22 | dashboard, overlay hidden, chart key 0 |
| DevicePreview.Preview.HeaderShown | components/DevicePreview.tsx:248-252 | the current view always has a header |
| DevicePreview.Preview.ClickTab | components/DevicePreview.tsx:175-186 | 'more' shows the overlay, schedules a hide and keeps the view; another tab becomes active; the chart key rises by one exactly on a 'progress' click, a re-click included; 'more' is never active |
| DevicePreview.Preview.HideTimerFires | components/DevicePreview.tsx:178 | a scheduled hide hides the overlay |
| DevicePreview.AfterClick | components/DevicePreview.tsx:175-186 | one click on (view, key): 'more' keeps the view, another tab replaces it; the key counts 'progress' clicks |
| DevicePreview.AfterClicksCounts | components/DevicePreview.tsx:175-186 | over any run of clicks the key grows by the number of 'progress' clicks and the view never becomes 'more' |
| ImportProgramAnimation.Elapse | components/ImportProgramAnimation.tsx:22-44 | an await finishing moves to the next await and sets the next step, except the restart, which keeps idle |
| ImportProgramAnimation.ElapseTimesRotates | components/ImportProgramAnimation.tsx:22-44 | within one round, k awaits move k places round the sequence |
| ImportProgramAnimation.SequenceRepeats | components/ImportProgramAnimation.tsx:41-43 | seven awaits return to the same await and step: the sequence repeats |
| ImportProgramAnimation.CycleOrder | components/ImportProgramAnimation.tsx:22-44 | the steps go idle, dashboard, click import, create plan, add exercises, complete, idle |
| ImportProgramAnimation.Sequencer.EnterView | components/ImportProgramAnimation.tsx:15-20 | entering view starts the sequence without changing the step |
| ImportProgramAnimation.Sequencer.DelayElapses | components/ImportProgramAnimation.tsx:20-44 | out of view nothing changes; in view the await advances and the step moves to its successor, except on the restart |
| ImportProgramAnimation.ExactlyOneScreen | components/ImportProgramAnimation.tsx:308-321 | exactly one of the three screens renders in every step |
| ImportProgramAnimation.PressAndCompleteOnTheirScreens | components/ImportProgramAnimation.tsx:311-324 | the press effect and the completion mark appear only on their own screens |
| ImportProgramAnimation.TotalSets | components/ImportProgramAnimation.tsx:728 | 0, 3, 6 and 10 sets for 0 to 3 exercises; three per exercise otherwise |
| ImportProgramAnimation.LabelPlural | components/ImportProgramAnimation.tsx:728 | the label starts with the count, and its noun is plural iff the count is not 1 |
| ImportProgramAnimation.ExerciseCounter.constructor | components/ImportProgramAnimation.tsx:696 | the counter starts at 0 |
| ImportProgramAnimation.ExerciseCounter.DelayElapses | components/ImportProgramAnimation.tsx:698-706 | the count rises by one up to 3 and stays there |
| ImportProgramAnimation.ExerciseScenario | components/ImportProgramAnimation.tsx:698-706 | after the delays the count is 3, every card and the add button show, and the label counts ten sets |
| ScrollMarquee.Segment | components/ScrollMarquee.tsx:30 | the segment is max(1, n * (cardW + gap)), so at least one pixel |
| ScrollMarquee.Repeated | components/ScrollMarquee.tsx:31 | four copies of the cards: length 4n, empty iff there are no cards, starting with the cards and periodic with period n |
| ScrollMarquee.Trunc | components/ScrollMarquee.tsx:75 | the integer part of a number, rounding toward zero |
| ScrollMarquee.FloatRem | components/ScrollMarquee.tsx:75 | JavaScript's `%` on numbers: exactly a less m times the truncated quotient, so in [0, m) for a non-negative dividend and in (-m, 0] for a negative one |
| ScrollMarquee.RemainderLeavesWholeMultiple | components/ScrollMarquee.tsx:75 | the dividend less the remainder is a whole number of m, namely the truncated quotient |
| ScrollMarquee.NextFrame | components/ScrollMarquee.tsx:61-79 | the frame time is recorded; the autoplay offset grows by rate times elapsed seconds and never shrinks for a non-negative rate; the accumulator grows by dy * speed only on downward scrolls and never shrinks for a non-negative speed; the last scroll position is recorded; the offset is exactly the negated remainder of the total by the segment, the total less a whole number of segments, so it lies in (-segment, 0] for a non-negative total and in [0, segment) for a negative one |
| ScrollMarquee.AccumulatorOneWay | components/ScrollMarquee.tsx:68-72 | over any run of frames the accumulator never decreases, and a run that never scrolls further down leaves it unchanged |
| ScrollMarquee.Marquee.constructor | components/ScrollMarquee.tsx:11-49 | the segment is memoised from the props; the refs start at 0 |
| ScrollMarquee.Marquee.Start | components/ScrollMarquee.tsx:53-83 | starting only from out of view, the autoplay offset restarts at 0, the scroll baseline is taken so the first frame sees no jump, and the accumulator is kept |
| ScrollMarquee.Marquee.Stop | components/ScrollMarquee.tsx:39-45 | leaving view stops the frames |
| ScrollMarquee.Marquee.Frame | components/ScrollMarquee.tsx:61-79 | a frame applies `NextFrame` |
| MobilePillHeader.ToggleLabel | components/MobilePillHeader.tsx:107 | "Close menu" iff the menu is open, "Open menu" iff it is closed |
| MobilePillHeader.ShowAfterScroll | components/MobilePillHeader.tsx:21-34 | before mount or while the menu is open a scroll leaves the header as it is; otherwise it shows iff the position is above 120 |
| MobilePillHeader.ScrollRun | components/MobilePillHeader.tsx:21-34 | while the menu is open no run of scrolls changes the header; with it closed only the last position counts |
| MobilePillHeader.Header.constructor | components/MobilePillHeader.tsx:11-13 | unmounted, closed, header hidden |
| MobilePillHeader.Header.Mount | components/MobilePillHeader.tsx:15-17 | mounting keeps the overflow rule |
| MobilePillHeader.Header.OnScroll | components/MobilePillHeader.tsx:23-30 | applies `ShowAfterScroll` |
| MobilePillHeader.Header.SyncBody | components/MobilePillHeader.tsx:37-42 | the body overflow is "hidden" iff the menu is open |
| MobilePillHeader.Header.ToggleMenu | components/MobilePillHeader.tsx:106 | the menu flips and the body lock follows |
| MobilePillHeader.Header.KeyDown | components/MobilePillHeader.tsx:49-55 | Escape closes the menu from any state and releases the lock; other keys keep it |
| MobilePillHeader.Header.ClickLink | components/MobilePillHeader.tsx:95-246 | the logo, a nav item and the download link close the menu |
| MobilePillHeader.Header.Unmount | components/MobilePillHeader.tsx:43-45 | cleanup releases the body lock |
| MobileMenu.HrefsDistinct | components/MobileMenu.tsx:11-18 | the six paths are distinct |
| MobileMenu.AtMostOneActive | components/MobileMenu.tsx:127 | at most one item is active on any page |
| MobileMenu.ToggleLabel | components/MobileMenu.tsx:40 | "Close menu" iff open, "Open menu" iff closed |
| MobileMenu.Menu.constructor | components/MobileMenu.tsx:21 | the menu starts closed |
| MobileMenu.Menu.Toggle | components/MobileMenu.tsx:34 | the toggle flips the menu |
| MobileMenu.Menu.KeyDown | components/MobileMenu.tsx:25 | Escape closes the menu; other keys keep it |
| MobileMenu.Menu.Close | components/MobileMenu.tsx:110-171 | the close button and every link close the menu |
| MobileMenu.Menu.DragEnd | components/MobileMenu.tsx:88-89 | a drag closes the open sheet iff it went more than 60 px down or faster than 700 px/s |
| JsCore.OrElse | app/api/subscribe/route.ts:61 | `a \|\| b` on a possibly absent string: a when it is present and non-empty, else b |
| JsCore.PadStart | script.js:190-191 | the string right-aligned to the width with the fill character |
| JsCore.JsRem | script.js:404 | the truncating remainder: in [0, n) and equal to the mathematical one for a non-negative dividend, in (-n, 0] for a negative one |
| JsCore.NatToStringValue | components/ImportProgramAnimation.tsx:728 | a number's decimal text reads back as the number |
| JsCore.LowerChar | lib/os-detect.ts:16 | ASCII case folding of one character |

## Left out

- The hCaptcha and Resend network calls are oracle outcomes (`CaptchaOutcome`, `SendOutcome`). The request bodies, the JSON parsing of the verifier's reply and the unencoded token interpolation in the verifier's body are not modelled.
- The request body's fields are strings or absent. A JSON value of another type (say a numeric email, whose `includes` throws) is not modelled.
- `fetch`, `response.json()` and the HCaptcha widget on the client are not modelled. They appear as a `FetchOutcome` and as the `CaptchaVerified` and captcha-reset steps.
- The colour of the form's status line and its `role` attribute are styling and are not modelled.
- `URLSearchParams` percent-encoding (the serializer of section 5.2 of the WHATWG URL Standard) is not modelled. Keys and values are treated as already-encoded text, and a pair serializes as `key=value`.
- `cn` and `formatDate` in `lib/utils.ts` are library wrappers and are out of scope.
- Case folding for `/…/i` covers ASCII letters only. Unicode case folding is not modelled.
- Analytics (`trackEvent`, `window.plausible`, `window.gtag`) is a foreign global and is left out.
- Real time and scheduling are discrete steps: delays, `setInterval`, `setTimeout`, `requestAnimationFrame`, IntersectionObserver and `useInView`. Their durations are left out, apart from the constants they name.
- The 100 ms `throttle` of the pill header comes from an unmodelled module. Each `OnScroll` call is a scroll event that the throttle lets through.
- The `window.scrollY \|\| window.pageYOffset` fallback is not modelled. The scroll position is a parameter.
- `animateCounter`, parallax, tilt, chart randomisation and the scroll indicator in `script.js` are floating-point animation, and are left out.
- The undefined `index` in the phone-mockup reset interval of `script.js` (lines 120-128) is left out. That interval throws at runtime and changes no modelled state.
- Focus management, `aria-controls`, framer-motion transitions and all CSS in the components are presentation, and are left out.
- The scroll marquee's reduced-motion check only logs a message. It is kept as a constant that no step reads, and the log is not modelled.
- ScrollMarquee.NextFrame: reals stand in for IEEE doubles, so rounding in `dt`, `tPx`, the accumulator and `%` is not modelled.
- SiteScript.Navbar.OnScroll: the handler reads `window.scrollY`, which here is a parameter.
- SiteScript.TestimonialCarousel.Next: `render()` is an empty placeholder in the source, and `testimonials` is never filled there. The model keeps the length as a field.
- Faq.Accordion.ToggleItem: the item index is taken to be that of a rendered item (`index < itemCount`), because the handler runs only from an item's own button.
- MobileMenu.Menu.DragEnd: a drag is taken to end only on the open sheet, because the sheet renders only while the menu is open.
- OsDetect.IsMobile has no `ensures` of its own. `OsDetect.IsMobileIff` states its meaning.
