# SoftSell: the logic behind the marketing site

SoftSell's site is a Next.js application for reselling unused software
licenses. Most of it is static content. This project models the four pieces
of it that carry logic and proves what they guarantee:

- **The chat widget** (`ChatWidget`, module `Chat`, chat_widget.dfy). It keeps
  an input line, an ordered conversation of user and bot entries, and the
  `isLoading` and `isOpen` flags. A send appends the trimmed user text and a
  pending placeholder. When the relay call settles, the last entry gives way
  to the reply. A reset empties the list, and a toggle shows or hides the
  panel. The one `await` in `handleSend` splits it in two: `HandleSend` runs
  up to the call and returns the text it sends, and `Settle` runs the rest.
  This way a reset between the two can be expressed. The class `ChatWidget`
  holds the state fields. Each of its methods is proved against a
  specification function on `ChatState` (`AfterSend`, `AfterSettle`,
  `Step`). The lemmas state what those functions guarantee.
- **The relay endpoint** (`handler` in the API route, module `Relay`,
  relay.dfy). It checks the method, then the `message` field, then the
  server's API key, then makes one call to the upstream chat-completion API
  and maps its outcome to a status and body. It is pure. The key is a
  parameter, and the upstream outcome is an input value.
- **The testimonial carousel** (`Testimonials`, module `Carousel`,
  testimonials.dfy). It holds an index into four testimonials with
  wrap-around next and previous, selection through the dots, and an autoplay
  interval that any manual navigation turns off for good. It also covers
  `renderStars`. The class `Carousel` holds `currentIndex` and `autoplay`.
- **The contact form** (`ContactForm`, module `Contact`, contact_form.dfy).
  Its validator requires a name, a well-formed email and a license. Submission
  runs through three phases (errors, submitting, submitted) and ends in a
  reset. The email pattern `^\S+@\S+\.\S+$` is stated as a predicate over
  strings. The scan that decides it is proved equivalent to that predicate.

The shared JavaScript primitives live in module `Js` (js.dfy):
- a value that may be missing;
- string truthiness;
- the ECMAScript white-space class used by `\s` and by `trim`, spelled out
  code point by code point;
- `String.prototype.trim`.

Timers and network calls are steps or inputs. A firing of the carousel's
interval is a `Tick` event. The end of the contact form's simulated API call
is `CallFinished`, and its reset timer is `ResetTimerFired`. A settled chat
call is `Settled(outcome)`. The predicates `Allowed` and `AllowedRun` say which
events the rendered components can deliver. For example, the chat input is
disabled while loading. The run lemmas prove invariants over every allowed
sequence of events.

Two behaviours of the source are stated as they are:
- A reset during a pending chat call does not cancel it. The reply arrives
  as the only entry of the emptied list (`Chat.ResetMidFlight`).
- The only guard against a second send while one is in flight is the
  disabled input and send button. Without them, the list would hold two
  placeholders (`Chat.SendWhileLoading`).

## Model

The event functions `Chat.Step` and `Contact.Step` map each UI event to its
handler. They have no rows of their own: the rows of the class methods
(`Chat.ChatWidget.*`, `Contact.ContactForm.*`) state each handler's effect as
`Step` of the old state, and the run lemmas state what `Step` preserves.

| member | source | states |
|---|---|---|
| Js.Trim | src/components/ChatWidget.tsx:40-41 | `trim` leaves no white space at either end, never lengthens, and yields "" exactly when the input is all white space |
| Js.TrimKeepsMiddle | src/components/ChatWidget.tsx:41 | the trimmed text is the input's middle, unchanged, between a blank prefix and a blank suffix |
| Relay.Dispatch | src/pages/api/mistral.ts:4-33 | non-POST gives 405 first; then a falsy message gives 400; then a falsy key gives 500; the handler forwards exactly when all three pass, as a POST of JSON to the fixed URL with the `Bearer` key, the fixed model, the system turn and the message verbatim as the only user turn |
| Relay.Complete | src/pages/api/mistral.ts:36-45 | any throw gives 500 with the fixed generic text; a provider error gives 500 with its message or "AI error"; any other body passes through unchanged with 200 |
| Relay.Handle | src/pages/api/mistral.ts:3-46 | the status is always one of 200, 400, 405 and 500; 200 exactly when the body is the upstream body, which then carries no error; every other body is a non-empty `{ error }` |
| Relay.EarlyAnswerIgnoresUpstream | src/pages/api/mistral.ts:4-18 | when a check fails, the upstream outcome cannot affect the response (no call is made), and the status is not 200 |
| Relay.BlankMessageIsForwarded | src/pages/api/mistral.ts:8-12 | the message check does not trim: a white-space-only message is forwarded verbatim |
| Chat.Interpret | src/components/ChatWidget.tsx:18-37 | a failed call or an error body gives the fixed fallback; otherwise the reply is the first choice's content, or the fallback when it cannot be read |
| Chat.DropLast | src/components/ChatWidget.tsx:47 | `slice(0, -1)` keeps a prefix one shorter, and nothing of an empty list |
| Chat.FromRelay | src/components/ChatWidget.tsx:27-32 | the widget always receives a body (`fetch` does not reject on status); an `{ error }` body has no readable content and a truthy error exactly when its text is non-empty; a passed-through body keeps its error and its first content |
| Chat.SendRequest | src/components/ChatWidget.tsx:40-41 | no request exactly when the input is blank; otherwise the request is the non-empty trimmed input |
| Chat.AfterSend | src/components/ChatWidget.tsx:40-45 | a blank input changes nothing; otherwise the old entries are kept, the trimmed user text and then the placeholder are appended, the input is cleared and loading is set |
| Chat.AfterSettle | src/components/ChatWidget.tsx:46-48 | the last entry (if any) is replaced by the bot's reply, every earlier entry is kept, and loading is cleared |
| Chat.SendEnabled | src/components/ChatWidget.tsx:147 | the send button is enabled exactly when not loading and the input is not blank, and then a send issues a request |
| Chat.InputEnabled | src/components/ChatWidget.tsx:143 | the input is enabled exactly when nothing is loading, and while it is disabled the send button is disabled too |
| Chat.Allowed | src/components/ChatWidget.tsx:69-147 | typing, keys and the send button need the panel open and nothing loading; a send needs a non-blank input; reset needs the panel open; a settlement happens exactly while loading; the toggle is always available |
| Chat.StepPreservesWellFormed | src/components/ChatWidget.tsx:42-61 | every allowed event keeps the placeholder last and unique, present while loading unless a reset emptied the list, and gone once idle |
| Chat.RunPreservesWellFormed | src/components/ChatWidget.tsx:39-61 | the same holds after any allowed sequence of events |
| Chat.InitialRunsWellFormed | src/components/ChatWidget.tsx:12-61 | from the state on mount, the conversation is well formed after every allowed sequence of events |
| Chat.SendWhileLoading | src/components/ChatWidget.tsx:143-147 | for every in-flight state with a non-blank input, a send is not allowed, and if it happened the placeholder would no longer be last |
| Chat.SendThenSettle | src/components/ChatWidget.tsx:39-48 | a send followed by its settlement appends exactly the trimmed user text and the bot reply, leaves no placeholder, and ends loading |
| Chat.ResetMidFlight | src/components/ChatWidget.tsx:39-61 | a reset between send and settlement leaves the reply as the only entry |
| Chat.WidgetRequestsAreWellFormed | src/components/ChatWidget.tsx:20-25 | the text the widget sends never draws a 405 or a 400 from the relay |
| Chat.RelayFailuresShowFallback | src/components/ChatWidget.tsx:27-35 | every non-200 relay response reaches the user as the fixed fallback |
| Chat.EndToEnd | src/components/ChatWidget.tsx:18-48 | with a key configured and upstream content `c`, a send and its settlement append the trimmed text and then `c` |
| Chat.ChatWidget.constructor | src/components/ChatWidget.tsx:12-15 | the widget starts with no input, no messages, idle and closed |
| Chat.ChatWidget.OnInputChange | src/components/ChatWidget.tsx:140 | typing replaces the input and nothing else |
| Chat.ChatWidget.HandleSend | src/components/ChatWidget.tsx:39-45 | returns the request text (none for a blank input) and leaves the state `AfterSend` describes |
| Chat.ChatWidget.Settle | src/components/ChatWidget.tsx:46-48 | leaves the state `AfterSettle` describes |
| Chat.ChatWidget.HandleKeyPress | src/components/ChatWidget.tsx:51-53 | Enter sends as `HandleSend` does; any other key changes nothing and sends nothing |
| Chat.ChatWidget.ToggleChat | src/components/ChatWidget.tsx:55-57 | flips `isOpen` and changes nothing else |
| Chat.ChatWidget.ResetChat | src/components/ChatWidget.tsx:59-61 | empties the conversation whatever it held and changes nothing else |
| Carousel.NextIndex | src/components/Testimonials.tsx:76 | `(i + 1) % n` stays in range and wraps from the last testimonial to the first |
| Carousel.PrevIndex | src/components/Testimonials.tsx:81 | `(i - 1 + n) % n` stays in range, wraps from the first to the last, and `NextIndex` undoes it |
| Carousel.Step | src/components/Testimonials.tsx:62-87 | every handler and tick keeps the index in range, and autoplay once off stays off; next and previous move the index by one with wrap-around and stop autoplay; a dot click selects exactly that dot and stops autoplay; a tick advances like next while autoplay is on, changes nothing while it is off, and never changes autoplay |
| Carousel.Run | src/components/Testimonials.tsx:45-87 | under any sequence of events the index stays in [0, 4) and autoplay is never switched back on |
| Carousel.TicksAdvance | src/components/Testimonials.tsx:62-72 | while autoplay is on, `k` ticks move the index `k` places forward modulo n |
| Carousel.NextsAdvance | src/components/Testimonials.tsx:74-77 | `k` next clicks move the index `k` places forward modulo n and stop autoplay |
| Carousel.FullCycle | src/components/Testimonials.tsx:67-76 | n ticks (with autoplay on) or n next clicks return to the starting testimonial |
| Carousel.PrevUndoesNext | src/components/Testimonials.tsx:74-82 | previous undoes next and next undoes previous |
| Carousel.DotActive | src/components/Testimonials.tsx:186 | a dot is highlighted exactly when clicking it would leave the index unchanged |
| Carousel.ExactlyOneDotActive | src/components/Testimonials.tsx:181-192 | exactly one dot, the current one, is highlighted |
| Carousel.Indicator | src/components/Testimonials.tsx:207 | the mobile indicator shows the current index plus one, out of n |
| Carousel.RenderStars | src/components/Testimonials.tsx:89-97 | exactly five stars, star `i` filled iff `i < rating` |
| Carousel.StarsShowRating | src/components/Testimonials.tsx:89-96 | a whole rating from 0 to 5 fills exactly that many stars, and a larger one fills all five |
| Carousel.Carousel.constructor | src/components/Testimonials.tsx:45-46 | the carousel starts at the first testimonial with autoplay on |
| Carousel.Carousel.HandleNext | src/components/Testimonials.tsx:74-77 | advances the index as `Step` does for `Next` and stops autoplay |
| Carousel.Carousel.HandlePrev | src/components/Testimonials.tsx:79-82 | moves the index back as `Step` does for `Prev` and stops autoplay |
| Carousel.Carousel.HandleDotClick | src/components/Testimonials.tsx:84-87 | selects the clicked dot and stops autoplay |
| Carousel.Carousel.Tick | src/components/Testimonials.tsx:62-72 | one interval firing, as `Step` does for `Tick` |
| Contact.IsEmail | src/components/ContactForm.tsx:32 | the scan accepts exactly the strings `^\S+@\S+\.\S+$` matches |
| Contact.Validate | src/components/ContactForm.tsx:27-37 | error keys are among name, email and license; a name error iff the name is blank; an email error iff the email is blank or (untrimmed) fails the pattern, with "required" and "invalid" exclusive; a license error iff the license is ""; each with its fixed text |
| Contact.ValidFormPasses | src/components/ContactForm.tsx:27-37 | every form with a non-blank name, an email matching the pattern and a chosen license has no errors, whatever its company and message |
| Contact.PaddedEmailInvalid | src/components/ContactForm.tsx:30-34 | a matching email passes, but the same email with a leading space is reported invalid, not trimmed |
| Contact.LicenseOptionsChecked | src/components/ContactForm.tsx:35 | the placeholder option "" fails the license check and each of the four license types passes |
| Contact.AfterSubmit | src/components/ContactForm.tsx:41-47 | with errors, only `errors` changes, to them; without, submitting starts, errors clear, and the form and `isSubmitted` are kept |
| Contact.Allowed | src/components/ContactForm.tsx:103-272 | while the thank-you panel shows, only the reset timer acts; submit needs neither phase; the simulated call ends exactly while submitting; any field can be edited while the form is shown |
| Contact.RunKeepsPhasesConsistent | src/components/ContactForm.tsx:39-60 | under any allowed sequence of events, submitting and submitted never hold together, and no error is shown in either phase |
| Contact.InitialRunsKeepPhasesConsistent | src/components/ContactForm.tsx:15-60 | from the state on mount, the phases stay exclusive and error-free after every allowed sequence of events |
| Contact.SuccessfulSubmission | src/components/ContactForm.tsx:39-60 | a valid form goes to submitting, then submitted, then back to the initial empty form |
| Contact.ContactForm.constructor | src/components/ContactForm.tsx:15-25 | the form starts empty, with no errors and in neither phase |
| Contact.ContactForm.OnChange | src/components/ContactForm.tsx:134-260 | the five `onChange` handlers (at lines 134, 163, 192, 215 and 258): editing a field replaces that field and nothing else |
| Contact.ContactForm.HandleSubmit | src/components/ContactForm.tsx:39-47 | `handleSubmit` up to its `await` leaves the state `AfterSubmit` describes |
| Contact.ContactForm.FinishSubmit | src/components/ContactForm.tsx:50-53 | the simulated call ends: submitting stops and submitted begins |
| Contact.ContactForm.ResetAfterSuccess | src/components/ContactForm.tsx:55-58 | the reset timer empties all five fields and leaves the submitted phase |

## Left out

- Rendering: the JSX, Tailwind classes, framer-motion animation, icons and the HTML rendering of bot text are presentation only. The model keeps what the markup decides: which controls are enabled, which dot is active, and the mobile indicator.
- Network calls: `fetch` (to the relay and to the upstream API) and `res.json()` are foreign calls. Their results are the input values `FetchOutcome` and `UpstreamOutcome`.
- Environment: `process.env.OPENROUTER_API_KEY` is read from the process environment, so it is the `apiKey` parameter.
- Time: the timers (`setTimeout`, `setInterval`) are steps without durations. The 1.5-second pause, the 3-second reset delay and the 5-second interval are not modelled, and neither are timer clean-up races at unmount.
- React internals: state batching, effect scheduling, `scrollIntoView` and `console.error` have no effect on the modelled state.
- JSON shapes: only strings or missing values are modelled for `message`, `data.error.message` and the reply content. A present but non-string value (a number, an object) is out of the model.
- Upstream `error` field: a present but falsy `error` field (`0`, `""`, `false`) counts as absent.
- A request whose `req.body` is `null` or `undefined`: the destructuring at `src/pages/api/mistral.ts:8` then throws before any branch. It is a framework failure, not a branch of the handler. A body that arrives as `""` or `{}` has no `message` and is the 400 branch.
- Chat.Interpret: a readable first choice whose `content` is missing would make the source resolve to `undefined` rather than the fallback. The model folds that case into "cannot be read", which gives the fallback.
- Carousel.RenderStars: the rating is a real number. JavaScript's floating-point comparison is modelled by exact comparison, which agrees on every rating the site holds.
- The other components (the layout with its menu toggle and active link, the hero, how-it-works, why-choose-us and the index page) are static content with no logic to state.
