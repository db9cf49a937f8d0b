# Campground request model

A Dafny model of KoLmafia's `CampgroundRequest`: one game action sent to
`campground.php` in a single request/response round trip. The action is
resting, relaxing, using the toaster, or just looking (the empty action).
The request does five things in order:

1. It refuses a `relax` while current MP equals maximum MP. This happens before any network call.
2. It makes the round trip.
3. It scrapes four facilities of the character from the page: chef, bartender, toaster and arches.
4. It hands the page before the `Your Campsite` heading to result processing.
5. It checks the action's confirmation phrase. For `rest` and `relax`, a missing phrase sets the request's error flag, notifies the display and cancels the client's pending sequence. For `toast`, a missing `acquire` only cancels the sequence.

Finally it reports how many adventures the action used.

Files and modules:

- `text.dfy` (`Text`): the `java.lang.String` operations the request uses (`indexOf`, `substring`, and containment as `indexOf(..) != -1`). They work over `seq<char>` and are proved against an independent definition of "occurs at position i".
- `session.dfy` (`Session`): the character record and the client, as classes. Only the effects the request has on them are modelled: MP, the four facility flags, a sticky cancel flag, the log of display notifications and the log of texts given to result processing.
- `campground.dfy` (`Campground`): the request class. It has both constructors, `Run` (split into the phases of `run()`) and `AdventuresUsed`. All probe strings are named constants in one place.
- `scenarios.dfy` (`CampgroundScenarios`): callers that build a fresh character, client and request, run it, and prove the outcome from `Run`'s contract alone.

Modelling decisions:

- The transport call `super.run()` is outside the model. `Run` takes its result as a parameter `Reply(responseCode, responseText, isErrorState)`. `Transport` copies the reply into the request and counts the round trip in a ghost counter, so "no network call" is stated as "the counter did not move".
- On a page without `Your Campsite`, `substring(0, -1)` throws `StringIndexOutOfBoundsException`. `Run` returns `ThrewIndexOutOfBounds` for this case. By then the flags are already set. Result processing, the probes and the cancellation do not run, and the error flag keeps the transport's value (false).
- The model makes `action`, `client` and the form URL `const`. `CampgroundRequest` assigns its private `action` only in its constructors (`CampgroundRequest.java:45-68`). `client` and the form URL live in the base request class, which is not part of this model.
- The model starts a request with `isErrorState = false`, `responseCode = 0`, an empty `responseText` (Java's unset `null`) and no form fields, and both constructors ensure this. The base-class constructor that really sets them is not part of this model.
- `updateDisplay` and `processResults` are inherited from the base request class. Here they are recorded on the client, which is where the notices and the parsed results end up.
- The facility flags are overwritten, not accumulated: on every parsable page each flag is set to "its marker is present" (`CampgroundRequest.java:95-98`), so a flag seen on one page is cleared by a later page without its marker. `CampgroundScenarios.LaterPageClearsChef` proves that a later page clears a flag an earlier page set.
- The refused relax is not reported. The request sets its error flag and does nothing else, with no notice and no cancellation (`CampgroundRequest.java:76-80`).
- Two behaviours of `getAdventuresUsed()` follow from the code as written. `Run`'s contract states both and `CampgroundScenarios.RestWithoutHeading` shows the first:
  - A rest or relax on a 200 page without `Your Campsite` still costs one adventure, because the exception leaves the error flag false.
  - A rest or relax whose reply has a non-200 code and no transport error flag also costs one.

  Whether the transport sets its error flag on every non-200 code is decided in code that is not part of this model.

## Model

| member | source | states |
|---|---|---|
| `Text.IndexOf` | src/net/sourceforge/kolmafia/CampgroundRequest.java:100 | `indexOf` is -1 exactly when the pattern does not occur; otherwise the pattern occurs at the result and at no earlier position |
| `Text.IndexFrom` | src/net/sourceforge/kolmafia/CampgroundRequest.java:95 | the search from a start position finds the first occurrence at or after it, or proves that no occurrence is left |
| `Text.Contains` | src/net/sourceforge/kolmafia/CampgroundRequest.java:95-98 | the probe `indexOf(p) != -1` is true exactly when `p` occurs in the text |
| `Text.Substring` | src/net/sourceforge/kolmafia/CampgroundRequest.java:100 | `substring(b, e)` succeeds exactly when `0 <= b <= e <= length` and then yields the characters `b..e-1`; otherwise it is the exception |
| `Text.Before` | src/net/sourceforge/kolmafia/CampgroundRequest.java:100 | the text before the first `marker` is absent exactly when the marker does not occur; when present it is a prefix, is followed by the marker, and contains no earlier occurrence |
| `Campground.CampgroundRequest.constructor` | src/net/sourceforge/kolmafia/CampgroundRequest.java:52-56 | the one-argument request targets `campground.php`, has action `""` and no form field, and starts with no error, code 0 and empty text |
| `Campground.CampgroundRequest.WithAction` | src/net/sourceforge/kolmafia/CampgroundRequest.java:63-68 | the two-argument request targets `campground.php`, stores the action and has exactly one form field `("action", action)`, and starts with no error, code 0 and empty text |
| `Campground.CampgroundRequest.AddFormField` | src/net/sourceforge/kolmafia/CampgroundRequest.java:66 | a form field is appended after the existing ones |
| `Campground.CampgroundRequest.Transport` | src/net/sourceforge/kolmafia/CampgroundRequest.java:82 | one round trip: the reply's code, text and error flag become the request's, and the round-trip count goes up by one |
| `Campground.CampgroundRequest.Run` | src/net/sourceforge/kolmafia/CampgroundRequest.java:74-129 | the gate reads MP as it was before the call; relax at full MP: error flag set, no round trip, character and client unchanged. Otherwise one round trip; on an error or non-200 reply, flags and client unchanged. Each flag equals "its marker occurs". A missing `Your Campsite` throws after the scrape with no results or probes; otherwise the prefix before it is processed, rest/relax without their phrase set the error, emit the fixed notice and cancel, and toast without `acquire` only cancels. Also states the full error flag and cost |
| `Campground.CampgroundRequest.ScrapeFacilities` | src/net/sourceforge/kolmafia/CampgroundRequest.java:93-98 | each of chef, bartender, toaster and arches becomes exactly "its marker occurs in the page", overwriting the previous value |
| `Campground.CampgroundRequest.ProcessAndProbe` | src/net/sourceforge/kolmafia/CampgroundRequest.java:100-128 | without `Your Campsite`: the exception, with client and error flag untouched; with it: exactly the prefix before the first heading is processed, then the probes' effects follow |
| `Campground.CampgroundRequest.Probe` | src/net/sourceforge/kolmafia/CampgroundRequest.java:105-128 | error flag set exactly when rest lacks `You sleep` or relax lacks `You relax`; exactly the matching error notice is appended; cancel is set (sticky) exactly on those failures or on toast without `acquire` |
| `Campground.CampgroundRequest.AdventuresUsed` | src/net/sourceforge/kolmafia/CampgroundRequest.java:141-143 | the cost is 0 or 1, and 1 exactly when the request is not in error and the action is `rest` or `relax` |
| `Session.Client.CancelRequest` | src/net/sourceforge/kolmafia/CampgroundRequest.java:111 | cancelling sets the client's sticky cancel flag |
| `Session.Client.UpdateDisplay` | src/net/sourceforge/kolmafia/CampgroundRequest.java:110 | a notification is appended to the display log in order |
| `Session.Client.ProcessResults` | src/net/sourceforge/kolmafia/CampgroundRequest.java:100 | the processed text is appended to the results log in order; the character's MP may change (the page's gains), and nothing else does |
| `Session.Character.SetChef` | src/net/sourceforge/kolmafia/CampgroundRequest.java:95 | the chef flag takes the given value |
| `Session.Character.SetBartender` | src/net/sourceforge/kolmafia/CampgroundRequest.java:96 | the bartender flag takes the given value |
| `Session.Character.SetToaster` | src/net/sourceforge/kolmafia/CampgroundRequest.java:97 | the toaster flag takes the given value |
| `Session.Character.SetArches` | src/net/sourceforge/kolmafia/CampgroundRequest.java:98 | the arches flag takes the given value |
| `CampgroundScenarios.RelaxAtFullMP` | src/net/sourceforge/kolmafia/CampgroundRequest.java:76-80 | relaxing at full MP, whatever the reply, makes no round trip, cancels nothing and costs 0 adventures |
| `CampgroundScenarios.ConfirmedRest` | src/net/sourceforge/kolmafia/CampgroundRequest.java:95-113 | a 200 rest page with `cook.php`, `You sleep` and the heading: the chef is discovered, there is no notice and no cancellation, and the cost is 1 |
| `CampgroundScenarios.UnconfirmedRest` | src/net/sourceforge/kolmafia/CampgroundRequest.java:105-113 | a 200 rest page with `Your Campsite` but without `You sleep`: exactly one notice `(ERROR_STATE, "Could not rest.")`, the sequence is cancelled, and the cost is 0 |
| `CampgroundScenarios.EmptyToast` | src/net/sourceforge/kolmafia/CampgroundRequest.java:127-128 | toast on a 200 page with `Your Campsite` but without `acquire`: the sequence is cancelled, but there is no error, no notice and no cost |
| `CampgroundScenarios.LaterPageClearsChef` | src/net/sourceforge/kolmafia/CampgroundRequest.java:95 | a chef flag set by one page is cleared by a later page without `cook.php` |
| `CampgroundScenarios.RestWithoutHeading` | src/net/sourceforge/kolmafia/CampgroundRequest.java:100-113 | a rest page without `Your Campsite` throws, processes nothing, cancels nothing and still costs 1 |
| `CampgroundScenarios.FailedTransport` | src/net/sourceforge/kolmafia/CampgroundRequest.java:87-88 | after a page that set all four facility flags, a transport error or a non-200 code leaves all four set, records no new notice or result, and cancels nothing |

## Left out

- The HTTP transport (the base request's `run()`): it is outside this model. Its outcome is the `Reply` parameter of `Run`.
- The internals of result processing, of the display update, of the client's cancellation and of the character setters: they are outside this model. Only their recorded effects are kept: the argument logged, the notice logged, the sticky flag and the field assignment.
- Session.Client.ProcessResults: the gains that result processing applies to the character (MP, HP, adventures, items, meat) are not modelled. Its contract only lets MP change, so `Run` promises unchanged MP only on the paths that never reach result processing: the refused relax, a failed or non-200 reply, and a page without `Your Campsite`.
- The exception raised by `substring`: it is a `Completion` value returned by `Run`. What callers do with it is outside this model.
- `KoLFrame.java`: the Swing window layer (menus, status pane, window-position settings, browser launching, reflective method calls, script loading on daemon threads, form scraping with regular expressions, number parsing). It is display and concurrency code, not part of the request.
- The script engine, macro recording and background execution: they are outside this model, and they are thread-based.
- Java strings are UTF-16 code-unit sequences. Here they are `seq<char>`, and every probe is an exact substring test, so nothing depends on the encoding.
