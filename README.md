# Marketing site front end: a verified model of its logic

This project is a Dafny model of the logic of a marketing-site front end written
in TypeScript and React. Almost all of the site is animation and layout. The
parts with real logic are modelled here:

- **Testimonial carousel.** A slide index wraps around in both directions. Pagination dots jump to a slide. A drag turns the slide once the pointer has moved more than 50 pixels. An autoplay interval runs until the first drag and never resumes.
- **Form schemas.** These cover the signup, login and home-page contact forms. Each schema lists its issues in declaration order, as the schema library does. A form is accepted when no issue remains. The schema's e-mail check is an uninterpreted predicate. Before the schema runs, the browser's own checks of the `type="email"` and `type="number"` inputs must pass.
- **Submit sequences.** Each form moves a few flags as it submits:
  - signup and login share `isSubmitting`/`submitSuccess` and a delayed reset;
  - the home-page contact form has `isSubmitting`/`isSubmitted`, with a `finally` block;
  - the contact page keeps a keyed record and a `submitStatus` of null, success or error.
- **Blog pages.**
  - The article page finds the first post whose slug matches, in a table where three slugs are duplicated.
  - It computes a reading time by ceiling division, and derives the avatar and "Follow" strings from the author's name.
  - The index cards add a default category, a link and an avatar.
- **Feature cards.** Each card has a one-slot selection toggle.
- **Authentication helpers.** There is sign-up, sign-in with profile creation on first login, and sign-out.
  - Each remote reply is an input.
  - Each request is appended to a log.
  - Each action sent to the store (`login`, `logout`) is appended to a second log.
- **Routing decisions.** The route guard either redirects or renders its children. The root layout shows the chrome on every page except the two auth pages.

The model has a common shape. Where the source changes state in event handlers, it has two layers:
- a pure `State` datatype with `Step` and `Run` functions, about which the properties are proved;
- a `class` holding the component's own fields, whose methods are proved to perform exactly `Step` on their fields.

Timers, awaited promises and intervals become explicit events (`Tick`, `Resolved`, `ResetElapsed`, `HideElapsed`). An event that the actual timing rules out leaves the state unchanged. String lengths are counted in UTF-16 code units (`Text.JsLength`), as JavaScript counts them.

Files:
- `text.dfy`: the JavaScript string operations used. These are `\s`, `length`, `split`, `replace(' ', …)` and `replace(/\s+/g, …)`.
- `option.dfy`: an optional value, for optional fields, `undefined` and `null`.
- `validation.dfy`: the issue type, the length and e-mail rules, and the shared password rule.
- `submit_flow.dfy`: the submit flags shared by the signup and login forms.
- The remaining files: one per component or library file, named after it.

## Model

| member | source | states |
|---|---|---|
| Text.JsLength | src/components/SignupForm/SignupForm.tsx:14 | The length of a string in UTF-16 code units lies between its number of code points and twice that. |
| Text.IndexOf | src/pages/BlogPost.tsx:282 | The result is -1 exactly when the character is absent. Otherwise it is a position holding the character, with no earlier occurrence. |
| Text.Split | src/pages/BlogPost.tsx:334 | Splitting always yields at least one part. |
| Text.JoinSplit | src/pages/BlogPost.tsx:334 | Joining the parts of a split with the separator gives back the original string. |
| Text.SplitPartsLackSeparator | src/pages/BlogPost.tsx:334 | No part of a split contains the separator. |
| Text.SplitFirstPart | src/pages/BlogPost.tsx:334 | The first part is the text before the first separator, or the whole string when there is none. |
| Text.ReplaceFirst | src/pages/BlogPost.tsx:282 | Replacing one character by another keeps the length. |
| Text.ReplaceFirstAt | src/pages/BlogPost.tsx:282 | Only the first occurrence is replaced; everything before and after it is kept. With no occurrence the string is unchanged. |
| Text.CollapseSpaces | src/pages/BlogPost.tsx:101 | `replace(/\s+/g, rep)`: its properties are stated by CollapseSpacesHasNoSpace, CollapseSpacesKeepsWord, CollapseSpacesRun and CollapseSpacesIdempotent below. |
| Text.DropSpaces | src/pages/BlogPost.tsx:101 | Dropping leading whitespace leaves a string that does not start with whitespace. |
| Text.CollapseSpacesHasNoSpace | src/pages/BlogPost.tsx:101 | With a non-whitespace replacement, `replace(/\s+/g, …)` leaves no whitespace. |
| Text.CollapseSpacesKeepsWord | src/pages/BlogPost.tsx:101 | A prefix without whitespace is copied unchanged. |
| Text.DropSpacesOfRun | src/pages/BlogPost.tsx:101 | A whitespace run followed by a non-whitespace character is dropped completely. |
| Text.CollapseSpacesRun | src/pages/BlogPost.tsx:101 | A whole whitespace run between two words becomes exactly one replacement character. |
| Text.CollapseSpacesIdempotent | src/components/Blogs/BlogCard.tsx:187 | Encoding an already encoded name changes nothing. |
| Optional.Option.GetOr | src/lib/auth.ts:113-114 | `x \|\| default` on an optional string: the value when present, the default when absent. |
| Testimonials.Next | src/components/Home/Testimonials.tsx:87-91 | `nextSlide`'s index update, specified by NextIsSuccessorModulo, NextPrevInverse, AdvanceIsModular and FullCycle. |
| Testimonials.Prev | src/components/Home/Testimonials.tsx:93-97 | `prevSlide`'s index update, specified by PrevIsPredecessorModulo and NextPrevInverse. |
| Testimonials.NextIsSuccessorModulo | src/components/Home/Testimonials.tsx:87-91 | `nextSlide` maps the last index to 0 and every other index i to i+1. It stays in range and equals (i+1) mod 5. |
| Testimonials.PrevIsPredecessorModulo | src/components/Home/Testimonials.tsx:93-97 | `prevSlide` maps 0 to the last index and every other index i to i-1. It stays in range and equals (i-1) mod 5. |
| Testimonials.NextPrevInverse | src/components/Home/Testimonials.tsx:87-97 | Prev after next, and next after prev, give back the index. |
| Testimonials.AdvanceIsModular | src/components/Home/Testimonials.tsx:87-91 | k applications of next equal (i+k) mod 5. |
| Testimonials.FullCycle | src/components/Home/Testimonials.tsx:87-91 | Five applications of next return to the start, and no smaller positive number does. |
| Testimonials.RenderStars | src/components/Home/Testimonials.tsx:158-165 | There are always exactly 5 stars, and star k is highlighted iff k < rating. This reads the markup pointwise; the content is in HighlightedPrefix and StarsCountRating. |
| Testimonials.HighlightedPrefix | src/components/Home/Testimonials.tsx:158-165 | When star k is highlighted iff k < r, the number highlighted is r clamped to the star count. |
| Testimonials.StarsCountRating | src/components/Home/Testimonials.tsx:158-165 | The number of highlighted stars is the rating clamped to 0..5. |
| Testimonials.TableRatings | src/components/Home/Testimonials.tsx:16-63 | Every testimonial in the table shows 4 or 5 highlighted stars. |
| Testimonials.Step | src/components/Home/Testimonials.tsx:77-132 | One handler or timer callback on the carousel state; specified by RunKeepsIndexInRange, AutoplayNeverResumes, MouseDownStopsAutoplay, TickAdvancesOnlyWithAutoplay, DragRule, ReleaseKeepsSlide and DragThereAndBack. |
| Testimonials.RunKeepsIndexInRange | src/components/Home/Testimonials.tsx:87-132 | From an index in [0,5), any sequence of events keeps the index in [0,5). Dots carry indices of the table (lines 309-312). |
| Testimonials.AutoplayNeverResumes | src/components/Home/Testimonials.tsx:69 | Once autoplay is off, no sequence of events turns it back on. |
| Testimonials.MouseDownStopsAutoplay | src/components/Home/Testimonials.tsx:103-107 | Mouse-down sets dragging, records startX, clears autoplay and changes nothing else. After it, autoplay stays off. |
| Testimonials.TickAdvancesOnlyWithAutoplay | src/components/Home/Testimonials.tsx:77-85 | An interval tick moves to the next slide iff autoplay holds, and never changes autoplay. |
| Testimonials.DragRule | src/components/Home/Testimonials.tsx:109-122 | Without a drag, a move changes nothing. A drag turns to next past +50 and to prev past -50, ending the drag. Within ±50 the state is unchanged. |
| Testimonials.ReleaseKeepsSlide | src/components/Home/Testimonials.tsx:124-132 | Mouse-up and mouse-leave clear dragging and keep the index and autoplay. |
| Testimonials.DragThereAndBack | src/components/Home/Testimonials.tsx:103-122 | A left drag followed by a right drag returns to the starting slide. |
| Testimonials.Carousel.constructor | src/components/Home/Testimonials.tsx:65-69 | The carousel starts at slide 0, not dragging, startX 0, autoplay on. |
| Testimonials.Carousel.NextSlide | src/components/Home/Testimonials.tsx:87-91 | Performs the next step on the fields; the index becomes (old+1) mod 5. |
| Testimonials.Carousel.PrevSlide | src/components/Home/Testimonials.tsx:93-97 | Performs the prev step; the index becomes (old-1) mod 5. |
| Testimonials.Carousel.GoToSlide | src/components/Home/Testimonials.tsx:99-101 | Sets the index to the dot's index. |
| Testimonials.Carousel.HandleMouseDown | src/components/Home/Testimonials.tsx:103-107 | Sets dragging and startX, clears autoplay, keeps the index. |
| Testimonials.Carousel.HandleMouseMove | src/components/Home/Testimonials.tsx:109-122 | Performs the drag rule; startX and autoplay are kept. |
| Testimonials.Carousel.HandleMouseUp | src/components/Home/Testimonials.tsx:124-126 | Clears dragging and keeps the index. |
| Testimonials.Carousel.HandleMouseLeave | src/components/Home/Testimonials.tsx:128-132 | Clears dragging and keeps the index. |
| Testimonials.Carousel.IntervalTick | src/components/Home/Testimonials.tsx:77-85 | One 5-second interval callback, which runs only while autoplay holds. |
| Testimonials.Carousel.Current | src/components/Home/Testimonials.tsx:276 | The displayed testimonial is the table entry at the index, with its 5 stars. |
| Validation.MinLength | src/components/Home/Contact.tsx:9 | A `min(n)` rule gives no issue iff the length is at least n, and otherwise exactly its message on its path. |
| Validation.EmailRule | src/components/Home/Contact.tsx:10 | The e-mail rule gives no issue iff the address predicate holds, and otherwise exactly its message. |
| Validation.BrowserEmailOk | src/components/SignupForm/SignupForm.tsx:145 | The browser's check of a non-required `type="email"` input, which gates the submit handler: empty passes, anything else must pass the browser's rule. Used by the three CanSubmit predicates. |
| Validation.PasswordIssues | src/components/SignupForm/SignupForm.tsx:13-16 | The password yields at most three issues, all on path `password`. |
| Validation.PasswordRule | src/components/SignupForm/SignupForm.tsx:13-16 | A password is accepted iff its length is at least 8, it has an A-Z letter and it has a 0-9 digit. Each message is present iff its rule fails. |
| Validation.JsLengthAppend | src/components/SignupForm/SignupForm.tsx:14 | The length of a concatenation is the sum of the lengths. |
| Validation.PasswordExtends | src/components/SignupForm/SignupForm.tsx:13-16 | Appending anything to an accepted password keeps it accepted: no rule forbids a character. |
| Validation.CapitalsAndDigitsAccepted | src/components/SignupForm/SignupForm.tsx:13-16 | A password with no lower-case letter ("PASSWORD1") is accepted. |
| Validation.LowercaseOnlyRefused | src/components/SignupForm/SignupForm.tsx:15 | "password1" is refused only for the missing upper-case letter. |
| SubmitFlow.Step | src/components/SignupForm/SignupForm.tsx:44-58 | The shared submit sequence of the signup and login forms over an `accepts` parameter; specified by StepKeepsConsistent, RunKeepsConsistent, SubmitStartsOnlyWhenAccepted, SuccessFollowsSubmission and SubmitCycle. |
| SubmitFlow.StepKeepsConsistent | src/components/SignupForm/SignupForm.tsx:44-58 | `isSubmitting` and `submitSuccess` are never both true after a step. |
| SubmitFlow.RunKeepsConsistent | src/components/SignupForm/SignupForm.tsx:44-58 | The same holds after any sequence of events. |
| SubmitFlow.SubmitStartsOnlyWhenAccepted | src/components/SignupForm/SignupForm.tsx:44-45 | A submit sets `isSubmitting` iff the schema accepts the values and no success is showing. A refused submit changes nothing. |
| SubmitFlow.SuccessFollowsSubmission | src/components/SignupForm/SignupForm.tsx:51-52 | Success appears only as the completion of an in-flight submission. |
| SubmitFlow.SubmitCycle | src/components/SignupForm/SignupForm.tsx:44-58 | Submit, completion and the 2-second reset pass through in-flight, then success, then the defaults. |
| SubmitFlow.Form.constructor | src/components/SignupForm/SignupForm.tsx:26-42 | The form starts with the defaults and both flags false. |
| SubmitFlow.Form.Edit | src/components/SignupForm/SignupForm.tsx:86 | Typing updates the values, except while the success view replaces the form. |
| SubmitFlow.Form.Submit | src/components/SignupForm/SignupForm.tsx:44-45 | Performs the submit step and reports whether a submission started. |
| SubmitFlow.Form.Resolve | src/components/SignupForm/SignupForm.tsx:48-52 | After the simulated call, sets success and clears `isSubmitting`. |
| SubmitFlow.Form.ResetTimerFired | src/components/SignupForm/SignupForm.tsx:55-58 | The reset restores the defaults and clears success. |
| SignupForm.Issues | src/components/SignupForm/SignupForm.tsx:11-21 | The schema's issues in declaration order; specified by AcceptsIff, ConfirmationOnlyMustMatch and DefaultsRefused. |
| SignupForm.AcceptsIff | src/components/SignupForm/SignupForm.tsx:11-21 | Accepted iff the address passes, the password passes its three rules, and the confirmation equals it. |
| SignupForm.ConfirmationOnlyMustMatch | src/components/SignupForm/SignupForm.tsx:17-21 | The mismatch issue is reported on `confirmPassword` iff the two differ, and it is the only issue on that path. |
| SignupForm.DefaultsRefused | src/components/SignupForm/SignupForm.tsx:37-41 | The empty default form is refused, at least for the password length. |
| SignupForm.CanSubmit | src/components/SignupForm/SignupForm.tsx:137-145 | The submit handler runs only when the browser's e-mail check passes (no `noValidate`) and the schema accepts; specified by CanSubmitIff. |
| SignupForm.CanSubmitIff | src/components/SignupForm/SignupForm.tsx:137-145 | A submission starts iff the schema's rules hold and the address is empty or passes the browser's check; an address the browser refuses always blocks it. |
| SignupForm.NewForm | src/components/SignupForm/SignupForm.tsx:25-59 | The signup component runs the shared submit flags over these defaults, and a submission needs both the browser's e-mail check and the schema. |
| LoginForm.AgeIssues | src/components/LoginForm/LoginForm.tsx:11 | `z.number().min(18).max(100)` on the delivered value; specified by AgeRange. |
| LoginForm.Issues | src/components/LoginForm/LoginForm.tsx:9-18 | The schema's issues in declaration order; specified by AcceptsIff and DefaultsRefused. |
| LoginForm.AgeRange | src/components/LoginForm/LoginForm.tsx:11 | The age is accepted iff it is a number with 18 ≤ age ≤ 100; 100 is accepted despite the message. |
| LoginForm.AcceptsIff | src/components/LoginForm/LoginForm.tsx:9-18 | Accepted iff all of these hold: name length ≥ 2, age in range, gender non-empty, address valid, and the password rules. |
| LoginForm.GenderChoicesAccepted | src/components/LoginForm/LoginForm.tsx:181-187 | Each radio value ("male", "female", "other") passes the gender rule; the empty default does not. |
| LoginForm.DefaultsRefused | src/components/LoginForm/LoginForm.tsx:34-40 | The default form is refused on name, age (undefined: "Required"), gender and password. |
| LoginForm.BrowserAgeOk | src/components/LoginForm/LoginForm.tsx:161-165 | The browser's check of the `type="number"` input with the default step of 1: a fractional number blocks the submit. |
| LoginForm.CanSubmit | src/components/LoginForm/LoginForm.tsx:136-208 | The submit handler runs only when the browser's age and e-mail checks pass (no `noValidate`) and the schema accepts; specified by CanSubmitIff and FractionalAgeBlocked. |
| LoginForm.CanSubmitIff | src/components/LoginForm/LoginForm.tsx:136-208 | A submission starts iff the name, gender, e-mail and password rules hold, the age is a whole number from 18 to 100, and the address is empty or passes the browser's check. |
| LoginForm.FractionalAgeBlocked | src/components/LoginForm/LoginForm.tsx:161-165 | An age of 50.5 is within the schema's bounds, yet the submission never starts. |
| LoginForm.NewForm | src/components/LoginForm/LoginForm.tsx:22-58 | The login component runs the shared submit flags over these defaults, and a submission needs the browser's age and e-mail checks and the schema. |
| HomeContact.Issues | src/components/Home/Contact.tsx:8-12 | The schema's issues in declaration order; specified by AcceptsIff and DefaultsRefused. |
| HomeContact.AcceptsIff | src/components/Home/Contact.tsx:8-12 | Accepted iff name length ≥ 2, the address is valid, and message length ≥ 10. |
| HomeContact.DefaultsRefused | src/components/Home/Contact.tsx:29-33 | The empty defaults are refused on name and on message. |
| HomeContact.CanSubmitIff | src/components/Home/Contact.tsx:165-195 | The submit handler runs iff the browser's e-mail check passes (empty or accepted) and the schema accepts; a refused address always blocks it. |
| HomeContact.Step | src/components/Home/Contact.tsx:37-60 | One event on the section state, gated by CanSubmit; specified by StepKeepsConsistent, ResolutionOutcomes, SubmitNeedsAcceptedValues and SuccessCycle. |
| HomeContact.StepKeepsConsistent | src/components/Home/Contact.tsx:37-60 | Never in flight while the thank-you shows. |
| HomeContact.ResolutionOutcomes | src/components/Home/Contact.tsx:40-59 | `isSubmitting` is false after success and after failure. Success shows the thank-you and resets the fields. Failure keeps everything else. |
| HomeContact.SubmitNeedsAcceptedValues | src/components/Home/Contact.tsx:37-38 | A submission starts only for values that pass the browser's e-mail check and the schema. |
| HomeContact.SuccessCycle | src/components/Home/Contact.tsx:37-60 | Submit, success and the 5-second timer lead back to the initial state. |
| HomeContact.ContactSection.constructor | src/components/Home/Contact.tsx:18-34 | The section starts with the defaults and both flags false. |
| HomeContact.ContactSection.Edit | src/components/Home/Contact.tsx:140 | Typing updates the fields while the form is shown. |
| HomeContact.ContactSection.Submit | src/components/Home/Contact.tsx:37-38 | Performs the submit step and reports whether it started. |
| HomeContact.ContactSection.Resolve | src/components/Home/Contact.tsx:40-59 | Performs the `try`/`catch`/`finally` step. |
| HomeContact.ContactSection.HideTimerFired | src/components/Home/Contact.tsx:52-54 | The timer hides the thank-you message. |
| ContactPage.Set | src/components/Contact/Contact.tsx:16-19 | `{ ...formData, [name]: value }`; specified by SetChangesOneField and SetIsTheOneFieldChange. |
| ContactPage.SetChangesOneField | src/components/Contact/Contact.tsx:16-19 | `handleChange` sets the named field and leaves the other three unchanged. Writing a field's own value changes nothing. |
| ContactPage.FieldsDetermineRecord | src/components/Contact/Contact.tsx:6-11 | The form state is exactly its four fields: records that agree on all four are equal. |
| ContactPage.SetIsTheOneFieldChange | src/components/Contact/Contact.tsx:16-19 | `handleChange`'s result is the only record holding the new value in the named field and the old values in the other three. |
| ContactPage.Step | src/components/Contact/Contact.tsx:16-36 | One event on the page state; specified by SubmitStarts, ResolutionOutcomes, SendAnotherOnlyClearsStatus, HiddenFormIgnoresInput and RoundTrip. |
| ContactPage.SubmitStarts | src/components/Contact/Contact.tsx:21-24 | Starting a submit sets `isSubmitting`, clears the status and keeps the fields. |
| ContactPage.ResolutionOutcomes | src/components/Contact/Contact.tsx:26-35 | Both outcomes clear `isSubmitting`. Success sets 'success' and empties all four fields, and the form is hidden. Failure sets 'error' and keeps the data. |
| ContactPage.SendAnotherOnlyClearsStatus | src/components/Contact/Contact.tsx:107-108 | "Send another message" sets the status to null and touches nothing else. |
| ContactPage.HiddenFormIgnoresInput | src/components/Contact/Contact.tsx:92 | While the status is 'success' the form is not shown, so typing and submitting change nothing. |
| ContactPage.RoundTrip | src/components/Contact/Contact.tsx:21-36 | Filling, sending, and asking for another message give back the initial page state. |
| ContactPage.Contact.constructor | src/components/Contact/Contact.tsx:6-14 | The page starts with empty fields, not submitting, status null. |
| ContactPage.Contact.HandleChange | src/components/Contact/Contact.tsx:16-19 | Performs the one-field update on the record. |
| ContactPage.Contact.HandleSubmit | src/components/Contact/Contact.tsx:21-24 | Performs the submit step (the button is disabled while submitting, line 188) and reports whether it started. |
| ContactPage.Contact.Resolve | src/components/Contact/Contact.tsx:26-35 | Performs the `try`/`catch`/`finally` step. |
| ContactPage.Contact.SendAnotherMessage | src/components/Contact/Contact.tsx:107-108 | Clears the status after a success. |
| BlogsData.Ids | src/lib/blogsData.ts:15-107 | The table has 9 posts, with ids 1..9 in order and pairwise distinct. |
| BlogsData.OptionalFields | src/lib/blogsData.ts:2-12 | Posts 1-5 have a category and content. Posts 6-9 have neither. |
| BlogsData.Slugs | src/lib/blogsData.ts:23-105 | Posts 7, 8 and 9 reuse the slugs of posts 1, 2 and 3. The first six slugs are distinct. |
| BlogsData.AuthorsRepeat | src/lib/blogsData.ts:15-107 | The authors follow six names in order, and posts 7-9 repeat the first three. |
| BlogPostPage.FindIndex | src/pages/BlogPost.tsx:36 | The search finds nothing iff no post has the slug. Otherwise it gives the first position whose slug is equal, and an undefined parameter matches nothing. |
| BlogPostPage.Find | src/pages/BlogPost.tsx:36 | The result is none iff no post carries the slug; otherwise it is a post of the table with that slug. |
| BlogPostPage.FirstMatchAt | src/pages/BlogPost.tsx:36 | When position k is the first with the slug, the lookup returns position k. |
| BlogPostPage.DuplicateSlugsResolveToFirst | src/pages/BlogPost.tsx:36 | The slugs of posts 7, 8 and 9 lead to posts 1, 2 and 3. |
| BlogPostPage.LastThreeUnreachable | src/pages/BlogPost.tsx:36 | No slug ever shows posts 7, 8 or 9. |
| BlogPostPage.EarlierCopyWins | src/pages/BlogPost.tsx:36 | Of two posts sharing a slug, the later one is never found. |
| BlogPostPage.MissingSlugNotFound | src/pages/BlogPost.tsx:38-46 | A missing route parameter gives the not-found view. |
| BlogPostPage.CeilDiv | src/pages/BlogPost.tsx:167 | `Math.ceil(n / d)`: the least q with q·d ≥ n. |
| BlogPostPage.ReadingLength | src/pages/BlogPost.tsx:167 | The content length when the content is present and non-empty; otherwise the description length. |
| BlogPostPage.ReadingMinutes | src/pages/BlogPost.tsx:167 | The reading time; specified by ReadingMinutesIsCeiling, OneMinuteUpTo1000 and ShortPostsReadInOneMinute. |
| BlogPostPage.ReadingMinutesIsCeiling | src/pages/BlogPost.tsx:167 | The minutes equal ⌈len/1000⌉, and are 0 only for an empty text. |
| BlogPostPage.OneMinuteUpTo1000 | src/pages/BlogPost.tsx:167 | A text of 1 to 1000 code units reads in one minute. |
| BlogPostPage.ShortPostsReadInOneMinute | src/lib/blogsData.ts:72-106 | Posts 6-9 take their reading length from the description, and read in one minute. |
| BlogPostPage.HeroImage | src/pages/BlogPost.tsx:207-213 | The picture is shown iff the image string is non-empty. |
| BlogPostPage.BodyOf | src/pages/BlogPost.tsx:216-233 | Markdown is rendered iff the content is present and non-empty. Otherwise the description comes first, then the fixed five points. |
| BlogPostPage.HeaderAvatarName | src/pages/BlogPost.tsx:101 | `author.replace(/\s+/g, '+')`; specified by TwoWordName, HeaderOfThreeWords, AvatarsDifferWithSecondSpace and TableAvatarsAgree. |
| BlogPostPage.BoxAvatarName | src/pages/BlogPost.tsx:282 | `author.replace(' ', '+')`, first space only; specified by TwoWordName, BoxOfThreeWords, AvatarsDifferWithSecondSpace and TableAvatarsAgree. |
| BlogPostPage.FollowName | src/pages/BlogPost.tsx:334 | The label uses the author's text before the first space, or the whole name; it contains no space. |
| BlogPostPage.IndexOfAfterWord | src/pages/BlogPost.tsx:282 | In a word, a space and a rest, the first space is right after the word. |
| BlogPostPage.TwoWordName | src/pages/BlogPost.tsx:101-334 | For "First Last" both avatars give "First+Last", and the label follows "First". |
| BlogPostPage.HeaderOfThreeWords | src/pages/BlogPost.tsx:101 | The header replaces both spaces of a three-word name. |
| BlogPostPage.BoxOfThreeWords | src/pages/BlogPost.tsx:282 | The author box replaces only the first space. |
| BlogPostPage.ThreeWordNameAvatarsDiffer | src/pages/BlogPost.tsx:101-282 | Worked instance: for a three-word name the two avatar names differ. |
| BlogPostPage.AvatarsDifferWithSecondSpace | src/pages/BlogPost.tsx:101-282 | Whenever the author's name holds a whitespace character other than its first space (a second space, a double space, a tab), the header and author-box avatar names differ. |
| BlogPostPage.DoubleSpaceAvatarsDiffer | src/pages/BlogPost.tsx:101-282 | A doubled space after the first name makes the two avatars differ. |
| BlogPostPage.TableAvatarsAgree | src/pages/BlogPost.tsx:101-334 | For every post in the table the two avatars agree, and the button follows the author's first name. |
| BlogPostPage.AuthorHasTwoNames | src/lib/blogsData.ts:15-107 | Each of the six authors is one first name, one space and one last name. |
| BlogPostPage.Render | src/pages/BlogPost.tsx:36-334 | The page is the not-found view iff no post carries the slug. Otherwise it is built from the first post with that slug: its title, author, reading time, hero image and body, the header and author-box avatars, and the follow label. |
| BlogCard.CategoryOf | src/components/Blogs/BlogCard.tsx:54 | A missing category becomes "Marketing"; a given one is shown as is. |
| BlogCard.Link | src/components/Blogs/BlogCard.tsx:86 | `/blog/${slug}`; specified by LinkRoundTrip. |
| BlogCard.LinkRoundTrip | src/components/Blogs/BlogCard.tsx:86 | The link is "/blog/" followed by the slug, the slug is recovered by dropping the prefix, and distinct slugs give distinct links. |
| BlogCard.Avatar | src/components/Blogs/BlogCard.tsx:187 | The card's avatar address; specified by AvatarNameIsEncoded. |
| BlogCard.AvatarNameIsEncoded | src/components/Blogs/BlogCard.tsx:187 | The avatar name holds no whitespace, and encoding it again changes nothing. |
| BlogCard.Render | src/components/Blogs/BlogCard.tsx:160-192 | The title, description, image and author are shown unchanged, the link is built from the slug, the category chip is CategoryOf, and the avatar is built from the author. |
| BlogCard.PropsFromPost | src/components/Blogs/Blogs.tsx:91-99 | The index passes the post's title, description, image, author, date and slug unchanged, and no category. |
| BlogCard.IndexCardsShowDefaultCategory | src/components/Blogs/Blogs.tsx:91-99 | Every card on the index shows "Marketing" and links to its slug. |
| BlogCard.FirstPostCategoryHidden | src/components/Blogs/BlogCard.tsx:54 | The first post's own category ("Digital Marketing") is not what its card shows. |
| Featured.FeatureIds | src/components/Home/Featured.tsx:13-42 | There are four features, with ids 1..4. |
| Featured.Toggle | src/components/Home/Featured.tsx:197 | Clicking the selected card clears the selection; clicking any other card selects it. This reads the handler pointwise; the content is in ToggleTwice, ToggleTwiceFromOther and ClicksStayInTable. |
| Featured.ToggleTwice | src/components/Home/Featured.tsx:197 | Two clicks on the same card restore the prior state when nothing, or that card, was selected. |
| Featured.ToggleTwiceFromOther | src/components/Home/Featured.tsx:197 | When another card was selected, two clicks leave nothing selected. |
| Featured.AtMostOneSelected | src/components/Home/Featured.tsx:196 | At most one card is drawn selected. |
| Featured.Clicks | src/components/Home/Featured.tsx:197 | The selection after a run of clicks; specified by ClicksStayInTable. |
| Featured.ClicksStayInTable | src/components/Home/Featured.tsx:76-197 | Clicks on the cards keep the selection null or a feature id, and it is the last card clicked or null. |
| Featured.SelectionKeepsLayout | src/components/Home/Featured.tsx:53 | A selected card and an unselected card get the same class, so a click never changes the layout. |
| Featured.FeaturedSection.constructor | src/components/Home/Featured.tsx:76 | No card is selected initially. |
| Featured.FeaturedSection.Click | src/components/Home/Featured.tsx:197 | The click replaces the selection by the toggle of the card's id. |
| Auth.ProfileOutcome | src/lib/auth.ts:18-38 | `createUserProfile`'s result from the insert reply; specified by ProfileOutcomeCases. |
| Auth.ProfileOutcomeCases | src/lib/auth.ts:18-38 | Profile creation never rejects. It reports success iff the insert returned no error, with its data. Otherwise it passes on the error or the exception. |
| Auth.SignUpSpec | src/lib/auth.ts:40-71 | `signUp`'s requests, actions and result for a reply; specified by SignUpNeverWritesProfile. |
| Auth.SignUpNeverWritesProfile | src/lib/auth.ts:40-71 | Sign-up rethrows an auth error and otherwise returns the data. It never selects or inserts a profile and dispatches nothing. |
| Auth.SignInSpec | src/lib/auth.ts:73-139 | `signIn`'s requests, actions and result for every combination of replies; specified by SignInDispatchRule and the worked cases below. |
| Auth.SignInAuthErrorStopsEarly | src/lib/auth.ts:77-85 | On an auth error, sign-in rejects after the single auth request, with no lookup and no dispatch. Worked case of SignInDispatchRule. |
| Auth.SignInWithoutUser | src/lib/auth.ts:90-134 | With no user, there is no lookup and no dispatch, and the data is returned. Worked case of SignInDispatchRule. |
| Auth.SignInExistingProfile | src/lib/auth.ts:121-130 | An existing row dispatches `login` with its id, its e-mail or '', and its full name or ''. No insert is made. Worked case of SignInDispatchRule. |
| Auth.SignInCreatesMissingProfile | src/lib/auth.ts:99-117 | On 'PGRST116' the profile is inserted with the user's id, e-mail or '' and metadata name. `login` follows iff the insert succeeded with data. Worked case of SignInDispatchRule. |
| Auth.SignInOtherProfileError | src/lib/auth.ts:118-120 | Any other lookup error dispatches nothing and inserts nothing; the data is still returned. Worked case of SignInDispatchRule. |
| Auth.SignInDispatchRule | src/lib/auth.ts:73-139 | For every combination of replies, sign-in dispatches at most one action, and it is a `login` with authStatus true. It rejects iff the auth request failed, and then dispatches nothing. It dispatches iff a user came back and the row either existed or was created with data. |
| Auth.SignOutSpec | src/lib/auth.ts:141-157 | `signOut`'s request, action and result; specified by SignOutRule. |
| Auth.SignOutRule | src/lib/auth.ts:141-157 | `logout` is dispatched iff the remote sign-out reported no error. Otherwise the error is rethrown. |
| Auth.AuthClient.constructor | src/lib/auth.ts:1-4 | The request log and the dispatch log start empty. |
| Auth.AuthClient.CreateUserProfile | src/lib/auth.ts:18-38 | Makes one insert request and dispatches nothing; returns the profile outcome. |
| Auth.AuthClient.SignUp | src/lib/auth.ts:40-71 | Appends exactly the sign-up requests, actions and result of the specification function. |
| Auth.AuthClient.SignIn | src/lib/auth.ts:73-139 | Appends exactly the sign-in requests, actions and result of the specification function. |
| Auth.AuthClient.SignOut | src/lib/auth.ts:141-157 | Appends exactly the sign-out requests, actions and result of the specification function. |
| ProtectedRoute.Guard | src/components/ProtectedRoute.tsx:9-19 | What the guard renders; specified by GuardDecision and GuardReadsOnlyStatus. |
| ProtectedRoute.GuardDecision | src/components/ProtectedRoute.tsx:14-19 | Signed in: the children with no redirect. Signed out: a replacing redirect to '/login' with `from` set to the current path. |
| ProtectedRoute.GuardReadsOnlyStatus | src/components/ProtectedRoute.tsx:10-16 | The decision depends only on `authStatus`: the user record never matters, and the path only fills `from`. |
| AppLayout.LayoutFor | src/App.tsx:6-24 | The layout for a pathname; specified by LayoutRule and NearMissesGetChrome. |
| AppLayout.LayoutRule | src/App.tsx:6-24 | '/login' and '/signup' render only the outlet. Every other path renders the header, then main with the outlet, then the footer. |
| AppLayout.NearMissesGetChrome | src/App.tsx:6-8 | A trailing slash, a different case or the root path is not an auth route, so the chrome is shown. |

## Left out

- Animation, styling and presentation: motion variants, springs, particles placed with `Math.random`, CSS classes (except the feature card's span), icons, and the testimonials' avatar URLs and quotations.
- Date formatting with date-fns (`format`, `formatDistanceToNow`), which depends on the clock and the locale. The `date` field is carried but never formatted.
- Markdown rendering: the model records only that the Markdown branch is taken, and with which source.
- How the form library registers inputs and shows messages. A schema is modelled as its ordered list of issues.
- Whether every refinement runs when a field rule already fails is also not modelled: the signup mismatch check is applied independently.
- The schema library's own e-mail regular expression, and the browser's `type="email"` check. The browser's check gates all four forms (none sets `noValidate`), and it runs before any submit handler. Both are uninterpreted predicates passed as parameters, `isEmail` for the schema and `browserEmail` for the browser.
- Of the browser's other constraint checks, only the login form's number input (default step 1, so a fractional age blocks the submit) and the contact page's `required` inputs are modelled. The schema refuses every other case the browser would block. Which messages are shown when the browser blocks a submit is not modelled.
- The library's built-in messages for a non-number age ("Required", "Expected number, received nan"). These are given as constants, not derived from library code.
- Real time: every `setTimeout`, `setInterval` and awaited delay is an explicit event. A timer cancelled by an unmount is not modelled.
- The `isMounted` flags of the hero, feature and carousel sections (src/components/Home/Featured.tsx:95, src/components/Home/Testimonials.tsx:167): before mounting the section renders nothing, and the flag is set on mount. So only the first render is suppressed and no reachable state changes.
- The layout is chosen from the pathname alone. A query string is not part of it, so `/login?x` is laid out like `/login`.
- React's batching and closures over stale state. Each handler is modelled as if it read the current state.
- Testimonials.Carousel.HandleMouseMove: the pointer coordinate is an integer, not a floating-point `clientX`.
- BlogPostPage.CeilDiv: it is exact integer ceiling. The source divides in floating point, which gives the same value for every length below 2^53.
- The remote service (the Supabase client) is left out, and so is any exception it could raise outside a returned `error`: each reply is an abstract input. The profile creation is an insert, not an upsert, and no overwrite is modelled.
- A profile lookup that throws instead of returning an error is not modelled.
- The store and its `auth` reducer are not part of this model: only the dispatched `login`/`logout` actions are recorded.
- `getCurrentUser` and `getUserProfile` (src/lib/auth.ts:159-176) are not called by any modelled component and are not modelled.
- Console logging in every helper.
- The router table in src/main.tsx is not modelled. It registers no `/blog/:slug` route, so the article page is modelled on its own. The route guard is modelled as a component, although the router does not use it.
- Auth.SignInCreatesMissingProfile: the metadata `full_name` is taken to be a string or absent. A non-string value in the user metadata is not modelled.
