# Portfolio site core, modelled in Dafny

This project models the few pieces of behaviour in a single-page portfolio
site (React, TypeScript, Vite). The rest of the site is layout and styling.
The modelled pieces are:

- **Project gallery filter** (`projects.dfy`, module `Projects`). The three
  shipped project records, the four filter buttons, and the filter. The
  filter keeps every record for `All` and otherwise keeps only the records of
  the selected category, in their original order.
- **Entry animation** (`motion.dfy`, module `Motion`). `fadeIn(direction,
  delay)` gives a hidden pose that is transparent and moved 40 pixels on one
  axis. It gives a shown pose that is opaque and at rest, and it passes the
  delay through to the show transition.
- **Bundle chunk splitting** (`vite_config.dfy`, module `ViteConfig`).
  `manualChunks(id)` puts dependencies into `vendor-react`, `vendor-motion`
  or `vendor` by substring tests, checked in that order. It leaves the
  application's own modules unassigned. JavaScript's `includes` is defined by
  scanning, and it is proved equal to "the needle occurs at some position".
- **Contact form** (`contact.dfy`, module `Contact`). The three field rules:
  name at least 2 long, a valid email, message at least 10 long. Lengths are
  JavaScript string lengths, which count UTF-16 code units. The section's
  state is a class: the success flag, the field values, the field errors and
  whether a submit was attempted. Fields are validated on submit and, after
  the first attempt, re-validated one by one as they change, which are the
  form library's default modes. The submit handler shows the success notice
  and resets the form only when sending succeeded. The submit event calls it
  only when every rule passes. Two client methods are verified usage
  scenarios: `RetypingClearsNameError` (a rejected name is corrected after a
  failed submit) and `TypingAfterSendRevalidates` (after a successful send,
  a short name shows its error at once).
- **GitHub statistics hook** (`github_stats.dfy`, module `GithubStats`). A
  class holding `stats` and `loading`. It starts at zero statistics with
  loading on. A reply carrying the three counters overwrites the statistics,
  with contributions the gist count plus 124; a request that throws keeps
  them. Either way, loading is
  switched off. A ghost history of arrived outcomes ties the state to a pure
  replay. Across several requests, the last successful response to arrive wins; a later request that throws keeps it.

Inputs the model takes as parameters:

- The email grammar of the validation library is the function `isEmail`.
  It is given to the section's constructor and fixed for its lifetime, as
  the schema is one fixed object.
- The result of posting the message (`sendContactMessage`: `response.ok`, or
  `false` on an exception) is the boolean parameter `sent`.
- The network response of the profile request is a `FetchOutcome` value.

One might expect `loading` to return to `true` when the username changes.
The hook's effect never calls `setLoading(true)`, so in the model `loading`
only ever moves from `true` to `false`. The class
invariant `loading <==> arrived == []` states this.

## Model

| member | source | states |
|---|---|---|
| `Projects.LabelInjective` | src/types/index.ts:12 | two categories have the same label exactly when they are the same category, so the datatype stands in for the string union |
| `Projects.Filter` | src/sections/Projects.tsx:21-23 | the result is no longer than the input, and every kept record is from the input and passes the filter predicate |
| `Projects.FilteredProjects` | src/sections/Projects.tsx:7-11 | the rendered list never has more than the 3 shipped records |
| `Projects.FilterAll` | src/sections/Projects.tsx:21-23 | with `All` the result is the input list exactly, in the same order |
| `Projects.FilterSelects` | src/sections/Projects.tsx:22 | with any other filter, every kept record has exactly that category |
| `Projects.FilterCount` | src/sections/Projects.tsx:21-23 | each record occurs in the result as often as in the input if it passes the predicate, and not at all otherwise |
| `Projects.FilterComplete` | src/sections/Projects.tsx:21-23 | no record that passes the filter is dropped |
| `Projects.FilterSubsequence` | src/sections/Projects.tsx:21-23 | the result is an order-preserving subsequence of the input |
| `Projects.FilterIdempotent` | src/sections/Projects.tsx:21-23 | filtering the filtered list again with the same filter returns it unchanged |
| `Projects.FiltersCoverCategories` | src/sections/Projects.tsx:15-19 | the initial filter is `All`, it is the first button, and every category has a button |
| `Projects.ShippedFilterResults` | src/sections/Projects.tsx:7-15 | `All` shows all shipped records; `React`, `UI/UX` and `Open Source` each show exactly their one record |
| `Motion.FadeIn` | src/utils/motion.ts:6-23 | hidden opacity 0; shown opacity 1 at x = 0, y = 0; the show transition is a spring carrying the given delay unchanged |
| `Motion.TravelsAlongHeading` | src/utils/motion.ts:9-15 | from hidden to shown the element moves exactly 40 pixels along the named direction (screen y grows downwards) |
| `Motion.HiddenOffsets` | src/utils/motion.ts:9-10 | up gives y = 40, down y = -40, left x = 40, right x = -40, and the other axis is 0 |
| `Motion.OneAxisDisplaced` | src/utils/motion.ts:9-10 | for every direction exactly one hidden axis is non-zero, and its magnitude is 40 |
| `Motion.ShowIgnoresDirection` | src/utils/motion.ts:12-21 | the shown pose and its transition are the same for every direction |
| `Motion.DirectionDetermined` | src/utils/motion.ts:9-10 | two directions give the same hidden pose exactly when they are the same direction |
| `Motion.Defaults` | src/utils/motion.ts:6 | omitted arguments mean direction up and delay 0 |
| `ViteConfig.IncludesIff` | vite.config.ts:20-22 | the scan used for `includes` succeeds exactly when the needle occurs at some position of the id |
| `ViteConfig.MissingCharNotIncluded` | vite.config.ts:20-22 | a needle holding a character the id lacks is not included |
| `ViteConfig.ManualChunks` | vite.config.ts:19-25 | any chunk assigned is one of `vendor-react`, `vendor-motion`, `vendor` |
| `ViteConfig.NoChunkOutsideNodeModules` | vite.config.ts:20-25 | an id gets no chunk exactly when `node_modules` does not occur in it |
| `ViteConfig.ReactChunk` | vite.config.ts:20-21 | an id goes to `vendor-react` exactly when both `node_modules` and `react` occur in it |
| `ViteConfig.ReactBeforeMotion` | vite.config.ts:21-22 | a dependency id naming both `react` and `framer-motion` still goes to `vendor-react` |
| `ViteConfig.MotionChunk` | vite.config.ts:21-22 | an id goes to `vendor-motion` exactly when it holds `node_modules` and `framer-motion` but not `react` |
| `ViteConfig.VendorChunk` | vite.config.ts:20-23 | an id goes to `vendor` exactly when it holds `node_modules` and neither `react` nor `framer-motion` |
| `ViteConfig.EveryDependencyChunked` | vite.config.ts:20-23 | every id holding `node_modules` gets one of the three chunk names |
| `ViteConfig.ReactPackagePath` | vite.config.ts:20-21 | any id with `react` somewhere after `node_modules` goes to `vendor-react` |
| `ViteConfig.ExampleSourcePath` | vite.config.ts:20-25 | the application source `/app/src/main.tsx` gets no chunk |
| `Contact.Utf16Length` | src/sections/Contact.tsx:14-16 | the JavaScript length of a string lies between its character count and twice that |
| `Contact.Utf16LengthBmp` | src/sections/Contact.tsx:14-16 | for text within the Basic Multilingual Plane the JavaScript length equals the character count |
| `Contact.Validate` | src/sections/Contact.tsx:13-17 | name has an error iff its length < 2, email iff the email predicate fails, message iff its length < 10; the error texts are the schema's |
| `Contact.PassesIff` | src/sections/Contact.tsx:13-17 | the form passes exactly when name length >= 2, the email is valid and message length >= 10 |
| `Contact.FieldsIndependent` | src/sections/Contact.tsx:13-17 | each field's error depends only on that field's value |
| `Contact.OnlyNameFails` | src/sections/Contact.tsx:13-17 | breaking only the name rule gives exactly the "Name is too short" error and no other |
| `Contact.AllThreeFail` | src/sections/Contact.tsx:13-17 | name "J", a rejected email and message "hi" give all three errors at once |
| `Contact.WellFormedPasses` | src/sections/Contact.tsx:13-17 | a well-formed name and message with an accepted address pass the schema |
| `Contact.WithError` | src/sections/Contact.tsx:54-74 | replacing one field's error sets that entry and keeps every other field's entry |
| `Contact.EditedFieldError` | src/sections/Contact.tsx:13-17 | the error the schema gives an edited field depends only on its new value |
| `Contact.ContactSection.constructor` | src/sections/Contact.tsx:23-26 | the section starts with no success notice, empty inputs, no errors and no submit attempt |
| `Contact.ContactSection.Edit` | src/sections/Contact.tsx:54-74 | typing into one input changes that field's value; after a submit attempt that field's error is re-validated, and other fields' errors, the notice and the attempt flag are kept |
| `Contact.ContactSection.OnSubmit` | src/sections/Contact.tsx:28-35 | a successful send sets `isSuccess` and resets the fields, errors and attempt flag; a failed send changes nothing |
| `Contact.ContactSection.HandleSubmit` | src/sections/Contact.tsx:47 | `onSubmit` runs exactly when the schema passes; otherwise all errors are recorded and the fields and notice are unchanged; the form is marked submitted after `onSubmit` returns, so it stays marked even after a successful send resets it |
| `GithubStats.LastFetched` | src/hooks/useGithubStats.ts:19-25 | finds the last successful outcome; every later outcome is a failure, and with none found all outcomes are failures |
| `GithubStats.ReplayIsLastFetched` | src/hooks/useGithubStats.ts:13-32 | after any sequence of responses, the statistics are those of the last successful one, or zero when all failed |
| `GithubStats.ExampleOutcomes` | src/hooks/useGithubStats.ts:19-25 | a response of 42 repositories, 7 followers and 3 gists shows 42, 7, 127; a failure leaves 0, 0, 0 |
| `GithubStats.GithubStatsHook.constructor` | src/hooks/useGithubStats.ts:6-11 | initial state: zero repositories, followers and contributions, loading on |
| `GithubStats.GithubStatsHook.FetchStats` | src/hooks/useGithubStats.ts:15-28 | on success the statistics become repos, followers and gists + 124; on failure they are unchanged; loading is off either way and never returns |
| `GithubStats.GithubStatsHook.Visible` | src/sections/GithubStats.tsx:22 | the statistics section renders exactly when at least one fetch has finished |

## Left out

- JSX layout, styling and the other presentational sections. They carry no behaviour.
- The network calls. The profile request and its `.json()` parsing become the `FetchOutcome` input. The contact POST becomes the boolean `sent`.
- The error logging to the console in both network paths.
- A profile response whose JSON body lacks the three integer fields, including any HTTP error reply with a JSON body (GitHub's error replies are JSON). A body that is not JSON makes `.json()` throw and is the modelled `Failed` case. The hook never checks the reply's status, so a JSON error body reaches `setStats` and writes `undefined` and `NaN` values, which an integer model cannot hold. The request path at src/hooks/useGithubStats.ts:16 lacks the `/users/` segment of the profile endpoint, so the shipped requests likely take exactly this path.
- JavaScript numbers are floating point. Counts are modelled as unbounded integers, which is exact below 2^53.
- The email grammar of the validation library. It is the uninterpreted function `isEmail`, fixed when the section is constructed.
- The form library's other behaviour: its other validation modes, blur and touch handling, the `submitCount`, dirty and touched state, and focusing the first field with an error. The model covers the default modes only: validation on submit, re-validation of an edited field after a submit attempt, and the submitted mark set after `onSubmit` returns.
- The `isSubmitting` flag. Submission is a single atomic step here, so the flag is never observed as `true`.
- The 5-second timer that hides the success notice. It is timer-driven and asynchronous.
- The floating-point animation parameters: duration, easing curve, and the stagger container's timings. Delays are modelled as exact `real` values that are only passed through.
- React's effect scheduling and overlapping requests after a username change. Only the arrival order of outcomes is modelled (`Replay`).
- Vite's plugin, alias and dev-server settings. They are configuration only.
