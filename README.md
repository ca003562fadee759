# Portfolio contact relay, navigation bar, contact form and project grid

A Dafny model of the four pieces of the portfolio site that hold logic:

- the contact endpoint (`POST /api/contact`): it checks that `name`, `email`
  and `message` are present, tests the address against
  `^[^\s@]+@[^\s@]+\.[^\s@]+$`, sends one request to the Resend e-mail API,
  and turns that API's reply, or anything thrown, into one JSON response;
- the navigation bar's state: show/hide on scroll, background flag, active
  section, mobile menu, and the clamped scroll target of a link click;
- the contact form's client state: field edits and the
  idle → loading → success | error status;
- the project grid: the category filter, the three-technology card with
  its `+k` badge, the image fallback, and the project modal.

Files: `js_values.dfy` (JavaScript truthiness and thrown values),
`email_format.dfy` (the address test and the language of its regular
expression), `contact_route.dfy`, `navbar.dfy`, `contact_form.dfy`,
`projects.dfy`.

The endpoint is modelled as pure functions (`Validate`, `BuildEmailRequest`,
`ReplyResponse`) and the early-return handler `Post` that composes them and
reports the provider request it sends, `None` when it sends nothing. The
provider's reply is an input. The navigation bar, the contact form and the
project section are classes whose fields are the components' state and refs;
each event handler is one method. The contact form's `handleSubmit`, which
awaits the endpoint, is split at the `await` into `StartSubmit` and
`CompleteSubmit`. Page layout enters as maps from element id to
`offsetTop`/`offsetHeight` (or to the bounding-box top).

Three behaviours of the endpoint's code worth knowing:
- the presence check does not trim, so a value of `" "` passes it;
- a provider status of 0 becomes 500 (`status || 500`);
- a successful provider reply whose body is not JSON yields 500 with the
  parse error's message, although the e-mail was accepted.

## Model

| member | source | states |
|---|---|---|
| `EmailFormat.PatternAgreement` | app/api/contact/route.ts:23-24 | the endpoint's address test accepts a string exactly when it is in the language of `^[^\s@]+@[^\s@]+\.[^\s@]+$`, both directions |
| `EmailFormat.AcceptedShape` | app/api/contact/route.ts:23-29 | an accepted address has no ECMAScript whitespace, exactly one `@` (multiset count 1), a non-empty part before it, and a dot with a character on each side after it |
| `ContactRoute.ConfigFrom` | app/api/contact/route.ts:5-7 | each of the key, from and to addresses is the environment value when set and non-empty, otherwise its fixed default; none is ever empty |
| `ContactRoute.Validate` | app/api/contact/route.ts:14-29 | a submission passes only when all three fields are present and non-empty and the address passes the test; a failure is one of the two fixed texts |
| `EmailFormat.IsValidEmail` | app/api/contact/route.ts:23-24 | an accepted address has no whitespace, contains `@` and is at least five characters long |
| `ContactRoute.PresenceCheckedFirst` | app/api/contact/route.ts:15-29 | a submission missing a field gets "All fields are required" whatever its address |
| `ContactRoute.WhitespaceAddressReachesShapeCheck` | app/api/contact/route.ts:15-29 | with all three fields non-empty, an address made only of whitespace passes the untrimmed presence check and is refused with "Invalid email format" |
| `ContactRoute.WhitespaceNameAndMessageAccepted` | app/api/contact/route.ts:15-29 | a name and message made only of whitespace pass validation when the address is well shaped |
| `ContactRoute.ValidateMatchesPattern` | app/api/contact/route.ts:22-29 | with all fields present, validation passes exactly when the address is in the regular expression's language, else the error is "Invalid email format" |
| `ContactRoute.BuildEmailRequest` | app/api/contact/route.ts:34-57 | the request goes to the Resend endpoint with the bearer key, from the configured sender, `to` is the one configured inbox, `reply_to` is the submitter, the subject is the prefix followed by the name, and name, address and message occur in the HTML unchanged |
| `ContactRoute.HtmlBody` | app/api/contact/route.ts:45-55 | name, address and message each occur in the HTML unchanged (no escaping), which begins with the template's fixed head and ends with its fixed tail |
| `ContactRoute.RejectionText` | app/api/contact/route.ts:59-67 | the error text of a rejected send is the reply's truthy `message`, else the generic text, also when the body is not JSON; it is never empty |
| `ContactRoute.ReplyResponse` | app/api/contact/route.ts:59-90 | a response's status is 2xx exactly when its body is the success body; success exactly for an ok reply with a JSON body, then 200 with the provider's id; a non-ok reply keeps its status (0 becomes 500); a thrown error or unparsable ok body gives 500 with the error's message or the generic text |
| `ContactRoute.Post` | app/api/contact/route.ts:9-91 | an unreadable body gives 500 and no provider call; a failed check gives 400 with the first failing check's text and no provider call; otherwise exactly the built request is sent once and the reply is mapped; every response's status agrees with its body |
| `Navbar.FirstCovering` | components/Navbar.tsx:47-63 | the chosen index is the first id, in list order, whose element exists and covers the position; none is chosen only when no id's element covers it |
| `Navbar.FirstCoveringIsFirst` | components/Navbar.tsx:51-61 | the first covering id in list order is always the one chosen, whatever later ids cover |
| `Navbar.TargetId` | components/Navbar.tsx:108 | a link's target id is its `href` without the first character |
| `Navbar.ScrollTarget` | components/Navbar.tsx:117-127 | the nav-click scroll target is the larger of 0 and element top plus page offset minus 80, so never negative |
| `Navbar.NavbarState.constructor` | components/Navbar.tsx:28-33 | the bar starts on "home", visible, unscrolled, menu closed, last position 0, not mobile |
| `Navbar.NavbarState.CheckMobile` | components/Navbar.tsx:36-44 | `isMobile` becomes width < 768; the menu closes only on a mobile-to-desktop change; nothing else changes |
| `Navbar.NavbarState.UpdateActiveSection` | components/Navbar.tsx:47-64 | the loop with its early exit sets the active section to the first linked section covering scrollY + 100, or leaves it |
| `Navbar.NavbarState.HandleScroll` | components/Navbar.tsx:70-96 | menu closed: down past 100 hides, up shows, otherwise unchanged; menu open: shown; background flag is position > 50; last position recorded; active section updated; and the bar is never hidden at or above position 100 nor while the menu is open |
| `Navbar.NavbarState.HandleNavClick` | components/Navbar.tsx:105-139 | the menu ends closed; the scroll target is the clamped position of the target element, none when it does not exist |
| `Navbar.NavbarState.ToggleMobileMenu` | components/Navbar.tsx:141-149 | the menu flips; opening it shows the bar; nothing else changes |
| `ContactForm.WithField` | components/Contact.tsx:73-80 | the named field takes the new value and the other two keep theirs |
| `ContactForm.Outcome` | components/Contact.tsx:42-70 | success exactly for an ok reply whose body parsed, with the fixed text; a non-ok reply gives its truthy `error` or "Failed to send message"; a thrown error gives its message, a non-Error throw the "try again later" text |
| `ContactForm.SubmitDisabled` | components/Contact.tsx:310 | the button is disabled exactly while loading, and then the banner is also shown |
| `ContactForm.BannerShown` | components/Contact.tsx:284 | the banner is shown exactly in the loading, success and error states |
| `ContactForm.OutcomeIndicators` | components/Contact.tsx:283-317 | once a reply is handled the button is enabled and the banner shown |
| `ContactForm.ContactFormState.constructor` | components/Contact.tsx:28-36 | the form starts empty and idle, with the button enabled and no banner |
| `ContactForm.ContactFormState.HandleChange` | components/Contact.tsx:73-80 | only the named field changes; the status is untouched |
| `ContactForm.ContactFormState.StartSubmit` | components/Contact.tsx:38-49 | before the request the status is loading with "Sending message...", the button is disabled, and the unchanged fields are sent |
| `ContactForm.ContactFormState.CompleteSubmit` | components/Contact.tsx:51-70 | the status becomes the reply's outcome; success clears all three fields, failure keeps them |
| `ContactForm.EndpointOutcomeShown` | components/Contact.tsx:53-60 | against the endpoint's responses, the form shows success exactly when the endpoint sent the e-mail, and otherwise the endpoint's error text, or the fallback when it is empty |
| `Projects.OfCategory` | components/Projects.tsx:50 | the category filter keeps only projects of the category, each from the list, and drops none of them |
| `Projects.FilteredProjects` | components/Projects.tsx:47-50 | "All" returns the list itself; a category returns exactly that category's projects |
| `Projects.OfCategoryAppend` | components/Projects.tsx:50 | the filter keeps relative order: filtering a concatenation concatenates the filtered parts |
| `Projects.OfCategoryCounts` | components/Projects.tsx:50 | every project of the category keeps its number of occurrences, every other project has none |
| `Projects.ShownTechnologies` | components/Projects.tsx:248 | a card lists the first min(3, n) technologies |
| `Projects.OverflowCount` | components/Projects.tsx:256-258 | the `+k` badge is present exactly when there are more than three technologies, and then k is the number beyond the first three, so positive |
| `Projects.TechnologiesAccounted` | components/Projects.tsx:248-258 | the listed technologies are a prefix and the badge counts the rest: listed plus k is n |
| `Projects.ImageSrc` | components/Projects.tsx:155-160 | the image source is the path, or an imported image's `src` |
| `Projects.ShowsFallback` | components/Projects.tsx:173 | the image is rendered exactly when its source is non-empty and no image error occurred; otherwise the placeholder |
| `Projects.Card` | components/Projects.tsx:162-260 | a card shows the fallback exactly when the source is empty or its image failed, the first min(3, n) technologies, and a badge present exactly when n > 3 holding n - 3 |
| `Projects.Modal` | components/Projects.tsx:306-348 | the modal renders nothing exactly when no project is selected, else that project, with the fallback exactly when its source is empty or the modal's image failed |
| `Projects.ProjectsView.constructor` | components/Projects.tsx:43-46 | the section starts on "All" with no project selected |
| `Projects.ProjectsView.SelectCategory` | components/Projects.tsx:101 | a filter click sets the category and nothing else |
| `Projects.ProjectsView.OpenProject` | components/Projects.tsx:129 | a card click selects that project |
| `Projects.ProjectsView.Close` | components/Projects.tsx:139 | closing deselects, and the modal then renders nothing |
| `Projects.ProjectsView.HandleKeyDown` | components/Projects.tsx:53-60 | Escape leaves no project selected; any other key changes nothing |
| `Projects.ProjectsView.ModalImageFailed` | components/Projects.tsx:355 | a modal image error is recorded and never cleared |
| `Projects.CardImage.constructor` | components/Projects.tsx:152 | a card starts without an image error |
| `Projects.CardImage.OnError` | components/Projects.tsx:180 | after a card image error the card shows the fallback |

## Left out

- The `fetch` calls themselves (to Resend and to `/api/contact`), JSON parsing of bodies and `console.error` logging: replies, parse results and thrown values are inputs.
- Values that are neither strings nor missing, and a JSON `null` reply body: fields are `Option<string>`. This covers the request body's `name`, `email` and `message`, the provider reply's `message` and `id` (app/api/contact/route.ts:64, 77) and the form reply's `error` (components/Contact.tsx:60). A truthy non-string value there would become the error text, or its `String(value)` rendering, in the source.
- `NextResponse.json`'s own `RangeError` for a status outside 200–599: `fetch` never reports such a status.
- `Post`: reads the configuration as a parameter built by `ConfigFrom`; the environment is read once at module load in the source.
- DOM and window access (`getElementById`, `getBoundingClientRect`, `window.scrollTo`, `window.open`, listener registration, `document.body.style.overflow`): geometry is integer input, and the scroll is returned.
- `HandleNavClick`: the 350 ms delay before scrolling when the menu was open; the geometry given is the geometry at scroll time.
- React hook mechanics (effect re-registration, batched `setState`, stale closures): every handler is one atomic update.
- Scroll and pixel values are integers; fractional positions are not modelled.
- Animation variants, timings and CSS classes; the static project list, page metadata and the Hero, About, Skills, Footer and icon components.
- `CardImage`: a card's `imageError` resets when the card remounts on a category change; remounting is not modelled.
- The `+k` badge's text: the count `k` is modelled, not its decimal rendering.
