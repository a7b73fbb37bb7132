# Digital business card — a Dafny model

This project models the client-side core of a Next.js business-card
application. A user onboards through a four-step wizard and edits the profile
in a settings form. The profile is kept by an app-wide provider that merges
partial updates, lays database rows over the current profile and keeps a copy
in browser storage. Saved cards from other people are shown in a
scroll-driven 3-D wallet stack. Each person's card page has a flip-and-zoom
reveal, and the card's back carries a chat panel that talks to a webhook.
Around these sit the wallet service, the bottom navigation bar and the QR
image.

There is one Dafny module per source file:

| module | source | form |
|---|---|---|
| `WalletStack` | `src/components/wallet/WalletContainer.tsx` | pure pose functions, plus a `WalletContainer` class for the selection |
| `BusinessCard` | `src/components/wallet/BusinessCard.tsx` | pure |
| `CardReveal` | `src/app/card/page.tsx` | a timed state machine on values (`Screen`), plus a `CardPage` class whose methods are proved against it |
| `ProfileContext` | `src/context/UserProfileContext.tsx` | pure merge and row mapping, plus a `ProfileProvider` class |
| `Onboarding` | `src/app/onboarding/page.tsx` | an `OnboardingPage` class, plus pure rendering |
| `SettingsPage` | `src/app/settings/page.tsx` | a `SettingsForm` class |
| `MonolithChat` | `src/app/card/components/MonolithChat.tsx` | a `ChatPanel` class, plus the history function |
| `MonolithService` | `src/app/card/services/geminiService.ts` | pure |
| `WalletService` | `src/services/walletService.ts` | pure |
| `BottomNav` | `src/components/layout/BottomNav.tsx` | pure |
| `QrCode` | `src/components/QRCodeGenerator.tsx` | pure |
| `JsValues` | (shared) | JavaScript value conventions: optional values, string truthiness and `\|\|` fallbacks, `trim`, `startsWith` |

## Modelling conventions

- **Optional values.** `undefined` and `null` are both `None`. An absent
  object key is a key missing from a map.
- **`a || b` on strings** is `OrElse`: the empty string falls through like a
  missing value.
- **Object spread** `{ ...a, ...b }` is map union, with `b`'s keys winning.
- **Effects become inputs.** Clocks, `fetch`, Supabase, `localStorage`,
  `FileReader` and the router are not modelled. What they return is an
  input: a clock reading, a `Response`, a `FetchOutcome` or a saved value.
  What is written to them is a field, for example `saved` or `navigatedTo`.
- **Asynchronous handlers** are split in two methods: one for the part before
  the `await` and one for the part after it settles.
- **Timers on the card page** are a queue of pending callbacks ordered by due
  time. A later callback due at the same time runs after the earlier ones.
  `RunUntil` fires every callback due by a given time, each at its exact due
  time.
- **Browser functions as parameters.** `encodeURIComponent` and the
  number-to-string conversion are function parameters. The lemmas that read a
  built string back state what they need of them, such as injectivity.
- **Numbers.** All of them are unbounded. The wallet's progress and poses are
  exact `real`s.

Three behaviours of the code worth noting:

- The active wallet card's z-index is the constant 100
  (`WalletContainer.tsx:68`), not a value that grows with the card count.
- Tapping the already active wallet card clears the selection
  (`WalletContainer.tsx:123`). It does not emit a navigation signal.
- The card page's two handlers check no state and cancel no timer
  (`card/page.tsx:12-34`). `StaleTimersAfterEarlyFlipBack` proves what
  follows. When the card is flipped back 100 ms into a reveal, the stale
  zoom-in and `flipped` callbacks still fire. The page comes to rest `idle`
  but zoomed.

## Model

| member | source | states |
|---|---|---|
| JsValues.OrElse | src/services/walletService.ts:100-102 | `x \|\| fallback` on an optional string: the value when it is non-empty, the fallback otherwise; the result is empty only if the fallback is |
| JsValues.TrimsToEmptyIffAllWhitespace | src/app/card/components/MonolithChat.tsx:24 | `s.trim()` is empty exactly when every character of `s` is JavaScript white space |
| WalletStack.Interpolate | src/components/wallet/WalletContainer.tsx:47-49 | the clamped linear map: the first output at or below the range, the last output at or above it; inside the range the output moves in proportion to the input, `(r - from)·(hi - lo) = (p - lo)·(to - from)`, strictly between the two outputs, and always between them |
| WalletStack.InterpolateMonotone | src/components/wallet/WalletContainer.tsx:47-49 | for a rising output range, the interpolated value never decreases as the progress grows |
| WalletStack.WindowStart | src/components/wallet/WalletContainer.tsx:41-42 | a card's window starts at `0.5·index/total`, inside [0, 0.5) |
| WalletStack.WindowEnd | src/components/wallet/WalletContainer.tsx:43 | every window is 0.4 wide and ends before 0.9 |
| WalletStack.WindowsStaggered | src/components/wallet/WalletContainer.tsx:41-43 | consecutive windows are offset by exactly `0.5/total`, so starts and ends strictly increase with the index |
| WalletStack.RawY | src/components/wallet/WalletContainer.tsx:47-49 | the offset target is 1000 before the window, `60·index` after it, and between the two throughout |
| WalletStack.RawScale | src/components/wallet/WalletContainer.tsx:55-57 | the scale target is 0.9 before the window, 1 after it, and always in [0.9, 1] |
| WalletStack.Opacity | src/components/wallet/WalletContainer.tsx:62-63 | opacity is 0 until the window opens, 1 from 0.1 later, and always in [0, 1] |
| WalletStack.OpaqueBeforeRest | src/components/wallet/WalletContainer.tsx:43-63 | between the end of the fade and the end of the window a card is fully opaque while its scale (and, for the first 17 cards, its offset) has not reached rest |
| WalletStack.ZIndex | src/components/wallet/WalletContainer.tsx:68 | the active card gets 100; every other card gets `10 + index` |
| WalletStack.CardPose | src/components/wallet/WalletContainer.tsx:47-79 | an active card is pinned at y 0, z 100, scale 1.05; an inactive one takes the offset and scale targets and z `40·index`; opacity and z-index as above |
| WalletStack.OffStageBeforeWindow | src/components/wallet/WalletContainer.tsx:47-79 | before its window an inactive card is at offset 1000, scale 0.9, opacity 0 |
| WalletStack.AtRestAfterWindow | src/components/wallet/WalletContainer.tsx:47-79 | after its window an inactive card rests at `60·index`, scale 1, opacity 1 |
| WalletStack.Layout | src/components/wallet/WalletContainer.tsx:154-163 | one pose per card, in card order, with only the selected index active |
| WalletStack.LayoutStacking | src/components/wallet/WalletContainer.tsx:68 | inactive cards stack in strictly ascending z-index order for any number of cards, and with at most 90 cards the active card is above all others |
| WalletStack.AtMostOneActive | src/components/wallet/WalletContainer.tsx:161 | at most one pose of a layout is pinned at the active scale 1.05, since an inactive card never grows past scale 1 |
| WalletStack.Toggle | src/components/wallet/WalletContainer.tsx:122-124 | tapping the selected card clears the selection; tapping any other card selects it |
| WalletStack.TapTwiceClears | src/components/wallet/WalletContainer.tsx:122-124 | two taps on the same card from no selection leave no selection |
| WalletStack.WalletContainer.constructor | src/components/wallet/WalletContainer.tsx:101 | the wallet starts with no card selected |
| WalletStack.WalletContainer.HandleCardClick | src/components/wallet/WalletContainer.tsx:122-124 | the new selection is the toggle of the old one: if the tapped card was active no card is, otherwise exactly the tapped card is |
| BusinessCard.DefaultPose | src/components/wallet/BusinessCard.tsx:18-20 | the fallback pose: the active pose (0, 50, 1.05), otherwise y `45·index`, z `−30·index`, scale `1 − 0.04·index` |
| BusinessCard.DefaultPoseFansOut | src/components/wallet/BusinessCard.tsx:18-20 | a later inactive card sits lower, further back and smaller than an earlier one |
| BusinessCard.ZIndex | src/components/wallet/BusinessCard.tsx:43 | 50 exactly for the active card; an inactive card gets `10 − index`, never above 10 |
| BusinessCard.ZIndexOrder | src/components/wallet/BusinessCard.tsx:43 | earlier inactive cards are above later ones, and the active card is above every inactive one |
| BusinessCard.TransformString | src/components/wallet/BusinessCard.tsx:22 | the fallback transform is a `translate3d(0, …)` string closed by `)` |
| BusinessCard.TransformPartsDetermined | src/components/wallet/BusinessCard.tsx:22 | when the formatted y and z contain no `p`, the transform string determines its three formatted numbers |
| BusinessCard.TransformStringDeterminesPose | src/components/wallet/BusinessCard.tsx:18-22 | with an injective, `p`-free number format, equal transform strings come from equal poses |
| BusinessCard.FinalStyle | src/components/wallet/BusinessCard.tsx:26-50 | the element's style has exactly the fixed keys, plus the passed style's keys or the fallback `transform`; z-index and transition are the card's own; every other passed key comes through unchanged |
| BusinessCard.PassedZIndexIgnored | src/components/wallet/BusinessCard.tsx:39-43 | a `zIndex` in the passed style is overwritten by the card's own |
| BusinessCard.PassedStyleReplacesFallback | src/components/wallet/BusinessCard.tsx:26 | a passed style without `transform` leaves the element with no transform: the fallback is not mixed in |
| BusinessCard.LogoLetter | src/components/wallet/BusinessCard.tsx:60 | the badge shows the company name's first character, and nothing for an empty name |
| CardReveal.SlotFor | src/app/card/page.tsx:15-21 | a new callback's place in the queue: after every callback due no later, before the first one due later |
| CardReveal.Schedule | src/app/card/page.tsx:15-21 | scheduling adds one callback and keeps a sorted queue sorted |
| CardReveal.ScheduleKeepsSorted | src/app/card/page.tsx:15-21 | scheduling into a queue ordered by due time keeps it ordered |
| CardReveal.ScheduleTwoIntoEmpty | src/app/card/page.tsx:15-21 | two callbacks scheduled into an empty queue, the earlier first, run in that order |
| CardReveal.ScheduleAfterEqualDue | src/app/card/page.tsx:15-21 | the new callback is inserted after every callback due at the same time or earlier and before every later one; the rest of the queue is unchanged |
| CardReveal.SchedulePermutes | src/app/card/page.tsx:15-21 | the queue after scheduling is the old queue plus the new callback, as a multiset |
| CardReveal.ScheduleAtBack | src/app/card/page.tsx:30-32 | a callback due no earlier than every queued one goes at the end |
| CardReveal.ScheduleAtFront | src/app/card/page.tsx:27-33 | a callback due before every queued one goes at the front |
| CardReveal.ScheduleNotBefore | src/app/card/page.tsx:15-33 | scheduling never introduces a callback due before a bound that all the others respect |
| CardReveal.WeightAppend | src/app/card/page.tsx:27-33 | the work left in a queue is additive over concatenation |
| CardReveal.WeightSchedule | src/app/card/page.tsx:27-33 | scheduling adds exactly the new callback's work to the queue's |
| CardReveal.Fire | src/app/card/page.tsx:15-33 | running a callback due no later than every queued one moves the clock to its due time and keeps the page well formed; the work left is one unit less than the queue and the callback held together; only a zoom-in callback turns zoom on, and only `resetting` queues another callback, `idle` one flip later |
| CardReveal.Step | src/app/card/page.tsx:15-33 | running the earliest callback keeps the page well formed and strictly reduces the work left |
| CardReveal.RunUntil | src/app/card/page.tsx:15-33 | after running to time `t` the clock reads `t` and no callback due by `t` is left |
| CardReveal.RunUntilSplit | src/app/card/page.tsx:15-33 | running to `t1` and then to `t2` is the same as running to `t2` |
| CardReveal.RunUntilFires | src/app/card/page.tsx:15-33 | a callback due by `t` fires on the way to `t` |
| CardReveal.RunUntilQuiet | src/app/card/page.tsx:15-33 | with nothing due by `t`, only the clock moves |
| CardReveal.StepZoomIn | src/app/card/page.tsx:15-17 | the zoom-in callback turns the zoom flag on and changes nothing else |
| CardReveal.StepFlipped | src/app/card/page.tsx:19-21 | the `flipped` callback sets that state and changes nothing else |
| CardReveal.StepIdle | src/app/card/page.tsx:30-32 | the `idle` callback sets that state and changes nothing else |
| CardReveal.StepResetting | src/app/card/page.tsx:27-33 | the `resetting` callback sets that state and schedules `idle` 1200 ms later |
| CardReveal.Reveal | src/app/card/page.tsx:12-22 | tapping the back sets `flipping` and schedules a zoom-in at +900 and then `flipped` at +1200 into the pending callbacks, which stay ordered and not overdue; zoom and clock are unchanged |
| CardReveal.FlipBack | src/app/card/page.tsx:24-34 | tapping the front turns zoom off at once and schedules `resetting` at +300 into the pending callbacks, which stay ordered and not overdue; the state is unchanged |
| CardReveal.RevealOnQuietPage | src/app/card/page.tsx:12-22 | on a page with nothing pending, the reveal leaves exactly the zoom-in and `flipped` callbacks queued in that order |
| CardReveal.RevealBeforeZoom | src/app/card/page.tsx:12-17 | until 899 ms after the tap nothing fires |
| CardReveal.RevealZoomIn | src/app/card/page.tsx:15-17 | at +900 the page is zoomed and still flipping, with only `flipped` pending |
| CardReveal.RevealFlipped | src/app/card/page.tsx:19-21 | at +1200 the page is `flipped`, zoomed, with nothing pending |
| CardReveal.FlipBackBeforeReset | src/app/card/page.tsx:24-28 | after flipping back, zoom is off at once and the state is unchanged until +299 |
| CardReveal.FlipBackResetting | src/app/card/page.tsx:27-32 | at +300 the page is `resetting`, with `idle` pending at +1500 |
| CardReveal.FlipBackIdle | src/app/card/page.tsx:27-33 | at +1500 the page is `idle`, unzoomed, with nothing pending |
| CardReveal.RevealFromStart | src/app/card/page.tsx:9-22 | a fresh page revealed at 0 is `flipped` and zoomed at 1200 |
| CardReveal.EarlyFlipBack | src/app/card/page.tsx:12-34 | flipping back at 100 during a reveal leaves a well-formed, unzoomed page |
| CardReveal.RevealFromStartAt100 | src/app/card/page.tsx:12-22 | at 100 a page revealed at 0 is still flipping and unzoomed, with both reveal callbacks queued |
| CardReveal.EarlyFlipBackQueue | src/app/card/page.tsx:12-34 | the early flip-back queues `resetting` at 400 ahead of the reveal's callbacks, none of them cancelled |
| CardReveal.EarlyFlipBackResets | src/app/card/page.tsx:27-33 | at 400 the page resets and queues `idle` at 1600 behind the stale callbacks |
| CardReveal.StaleTimersAfterEarlyFlipBack | src/app/card/page.tsx:12-34 | with no guards or cancellation, the stale zoom-in fires at 900 and the stale `flipped` at 1200, and the page ends `idle` yet zoomed at 1600 |
| CardReveal.AnimationClass | src/app/card/page.tsx:37-40 | the float animation exactly when idle, the reveal animation exactly when flipping or flipped, the reset animation exactly when resetting |
| CardReveal.StageClass | src/app/card/page.tsx:50-53 | the full-screen stage exactly when zoomed, the small stage otherwise |
| CardReveal.ShadowClass | src/app/card/page.tsx:69-71 | the shadow is hidden exactly when zoomed; otherwise it is small while flipping or flipped and pulsing while idle or resetting |
| CardReveal.CardPage.constructor | src/app/card/page.tsx:9-10 | the page starts idle, unzoomed, at time 0, with nothing pending |
| CardReveal.CardPage.HandleReveal | src/app/card/page.tsx:12-22 | the page's new state is `Reveal` of its old state |
| CardReveal.CardPage.HandleFlipBack | src/app/card/page.tsx:24-34 | the page's new state is `FlipBack` of its old state |
| CardReveal.CardPage.RunNext | src/app/card/page.tsx:15-33 | running the earliest pending callback in place gives `Step` of the old state |
| CardReveal.CardPage.AdvanceTo | src/app/card/page.tsx:15-33 | advancing the clock in place to `t`, firing callbacks one by one, gives `RunUntil` of the old state |
| ProfileContext.DefaultProfile | src/context/UserProfileContext.tsx:42-69 | every text key and every chatbot setting is `""`, the scan count is 0, and the profile is complete |
| ProfileContext.ApplyPatch | src/context/UserProfileContext.tsx:151-166 | each key the update carries replaces the old value; chatbot settings, when carried, are merged key by key; everything else is kept; completeness is preserved |
| ProfileContext.ApplyPatchIdempotent | src/context/UserProfileContext.tsx:151-166 | applying the same update twice is the same as applying it once |
| ProfileContext.AsPatch | src/app/settings/page.tsx:33 | a whole profile passed as an update carries all its keys, including the full settings object |
| ProfileContext.ApplyCompleteProfile | src/app/settings/page.tsx:33 | updating with a complete profile that has a scan count and covers the old keys yields exactly that profile |
| ProfileContext.MapRow | src/context/UserProfileContext.tsx:106-125 | a fetched row's non-empty columns win over the profile's values; `id` and `profileSlug` are copied as they are; the scan count is the row's or 0; settings are kept; completeness is preserved |
| ProfileContext.MapRowKeepsUnmappedFields | src/context/UserProfileContext.tsx:107-125 | category, location and MRR have no column, so a fetch never changes them |
| ProfileContext.RowAsProfile | src/context/UserProfileContext.tsx:87-90 | a stored raw row read back as a profile carries only `id`; every other key is missing |
| ProfileContext.ProfileProvider.constructor | src/context/UserProfileContext.tsx:74-75 | the provider starts with the default profile, not hydrated, with storage as found |
| ProfileContext.ProfileProvider.UpdateProfile | src/context/UserProfileContext.tsx:151-166 | the profile becomes the merge of the update, and storage holds the merged profile |
| ProfileContext.ProfileProvider.HydrateFromStorage | src/context/UserProfileContext.tsx:85-94 | without a user, a stored value that parses replaces the profile, and the provider becomes hydrated |
| ProfileContext.ProfileProvider.ApplyFetch | src/context/UserProfileContext.tsx:100-132 | a fetched row is laid over the profile and the raw row is stored; an error or no row changes nothing; the provider becomes hydrated |
| ProfileContext.ProfileProvider.SignOut | src/context/UserProfileContext.tsx:140-142 | signing out restores the default profile and clears storage |
| ProfileContext.FetchedNameNotRestored | src/context/UserProfileContext.tsx:127 | after a fetch, the stored copy restores a profile without a name, which is not complete |
| Onboarding.OnboardingPage.constructor | src/app/onboarding/page.tsx:22-23 | the wizard starts at step 0, not submitting, nothing sent |
| Onboarding.OnboardingPage.HandleNext | src/app/onboarding/page.tsx:25-31 | below the last step it moves on by one; on the last step it starts submitting the current profile; the step stays in range |
| Onboarding.OnboardingPage.SubmissionSettled | src/app/onboarding/page.tsx:38-43 | whatever the webhook answered, submitting stops and the wizard navigates to the dashboard |
| Onboarding.OnboardingPage.HandleBack | src/app/onboarding/page.tsx:47-51 | one step back, and nothing at the first step |
| Onboarding.PrimaryLabel | src/app/onboarding/page.tsx:294-302 | "Sending..." exactly while submitting, "Complete" exactly on the last step otherwise, "Next" exactly on the other steps |
| Onboarding.Buttons | src/app/onboarding/page.tsx:289-294 | Back is shown exactly after the first step; both buttons are disabled exactly while submitting |
| Onboarding.DotHighlighted | src/app/onboarding/page.tsx:61 | a progress dot is lit exactly for the current and the earlier steps |
| Onboarding.NextLightsOneMoreDot | src/app/onboarding/page.tsx:61 | moving on one step lights exactly one more dot, the new step's |
| Onboarding.FieldPatch | src/app/onboarding/page.tsx:97-153 | an input's update carries that one key and nothing else |
| Onboarding.FieldPatchChangesOnlyField | src/app/onboarding/page.tsx:97-153 | typing into an input changes that field of the profile and nothing else |
| Onboarding.ChooseOption | src/app/onboarding/page.tsx:168-244 | an option button's update carries the whole settings object with that one key replaced |
| Onboarding.ChooseOptionChangesOnlyKey | src/app/onboarding/page.tsx:168-244 | choosing an option changes that one chatbot setting of the profile and nothing else |
| SettingsPage.PhotoLimitInclusive | src/app/settings/page.tsx:41 | the limit is 2 MiB: a photo of exactly 2097152 bytes is accepted, one byte more is not |
| SettingsPage.View | src/app/settings/page.tsx:55 | the form is rendered exactly once the provider is hydrated |
| SettingsPage.SettingsForm.constructor | src/app/settings/page.tsx:20 | the form starts as a copy of the profile |
| SettingsPage.SettingsForm.Resync | src/app/settings/page.tsx:22-26 | once hydrated, the form is replaced by the provider's profile; before that it is kept |
| SettingsPage.SettingsForm.HandleChange | src/app/settings/page.tsx:28-30 | an input sets its one field of the form and leaves the rest |
| SettingsPage.SettingsForm.HandlePhotoUpload | src/app/settings/page.tsx:37-53 | a file over the limit raises the size alert and leaves the form alone; an accepted file starts one more read; no file does nothing |
| SettingsPage.SettingsForm.PhotoRead | src/app/settings/page.tsx:47-50 | a started read finishes: its photo becomes the avatar, one read fewer is pending, and nothing else changes |
| SettingsPage.SettingsForm.HandleSave | src/app/settings/page.tsx:32-35 | the provider's profile becomes the merge of the whole form, is stored, and equals the form when both are complete; the page navigates back |
| MonolithService.RequestPayload | src/app/card/services/geminiService.ts:6-10 | the webhook receives the question, the page URL and the history unchanged |
| MonolithService.ReplyFromObject | src/app/card/services/geminiService.ts:29 | the reply is the first non-empty of `output`, `text` and `message`, or the fixed acknowledgement; never empty |
| MonolithService.MonolithResponse | src/app/card/services/geminiService.ts:12-34 | a network failure, a non-ok status, a `null` body or a body that is not JSON gives the interruption notice; an object body gives its reply; a primitive body gives the acknowledgement; never empty |
| MonolithService.InterruptedOnlyOnFailure | src/app/card/services/geminiService.ts:20-34 | the interruption notice comes only from a failure or from a body field that carries that very text |
| MonolithChat.History | src/app/card/components/MonolithChat.tsx:31-34 | the history has one entry per message of the log |
| MonolithChat.HistoryAppend | src/app/card/components/MonolithChat.tsx:31-34 | the history of a concatenated log is the concatenation of the histories |
| MonolithChat.HistoryEntryAt | src/app/card/components/MonolithChat.tsx:31-34 | history entry `i` carries message `i`'s role and text |
| MonolithChat.HistoryGrowsWithLog | src/app/card/components/MonolithChat.tsx:26-40 | after a question and its reply, the next history extends the previous one by exactly those two entries |
| MonolithChat.ChatPanel.constructor | src/app/card/components/MonolithChat.tsx:7-11 | the panel starts with an empty box, the greeting alone in the log, and not loading |
| MonolithChat.ChatPanel.SendDisabled | src/app/card/components/MonolithChat.tsx:87 | the send button is disabled exactly while loading |
| MonolithChat.ChatPanel.SetInput | src/app/card/components/MonolithChat.tsx:81 | typing sets the box and nothing else |
| MonolithChat.ChatPanel.HandleSubmit | src/app/card/components/MonolithChat.tsx:22-38 | blank input or a question in flight changes nothing and sends nothing; otherwise the question is logged as typed, the box is cleared, loading starts, and the request carries the history of the log before the question |
| MonolithChat.ChatPanel.ReceiveReply | src/app/card/components/MonolithChat.tsx:36-46 | the reply, or "Connection unstable." if the call threw, is appended as the model's message and loading stops |
| WalletService.ToDisplay | src/services/walletService.ts:97-105 | a joined row becomes a card whose company, owner and role fall back to their placeholders and are never empty; ids, slug and avatar pass through |
| WalletService.MissingProfileShowsPlaceholders | src/services/walletService.ts:99-104 | a row without a joined profile shows all three placeholders and no ids or links |
| WalletService.ToDisplays | src/services/walletService.ts:97-105 | one card per row, in row order, each the mapping of its row |
| WalletService.GetWalletCards | src/services/walletService.ts:71-105 | no session or a failed query gives no cards; otherwise one card per row, in order, each the `ToDisplay` of its row: the saved-entry id, the joined profile's id, slug and photo, and its company, name and role or their placeholders |
| WalletService.AddToWallet | src/services/walletService.ts:17-36 | no session throws "Must be logged in"; a duplicate-key error (23505) reports `already_saved`; any other error is thrown unchanged; success returns the row |
| WalletService.AlreadySavedOnlyOnDuplicate | src/services/walletService.ts:30-32 | `already_saved` is reported only for a signed-in insert refused with code 23505 |
| WalletService.RemoveFromWallet | src/services/walletService.ts:41-49 | true exactly when the delete succeeds; otherwise its error is thrown |
| WalletService.IsSaved | src/services/walletService.ts:54-66 | saved exactly when signed in and the lookup found a row |
| BottomNav.AtMostOneTabActive | src/components/layout/BottomNav.tsx:12-41 | no pathname highlights two tabs |
| BottomNav.CardSlug | src/components/layout/BottomNav.tsx:19 | the profile's slug when non-empty, else `my-card`; never empty |
| BottomNav.CardId | src/components/layout/BottomNav.tsx:20 | the profile's id when non-empty, else empty |
| BottomNav.CompanyParam | src/components/layout/BottomNav.tsx:21 | the encoded company name when there is one, else empty |
| BottomNav.CardLink | src/components/layout/BottomNav.tsx:18-24 | the link is `/card/` + slug + `?id=` + id + `&c=` + company, and lies under `/card` |
| BottomNav.LinkTextInjective | src/components/layout/BottomNav.tsx:24 | when the slug holds no `?` and the id no `&`, the link text determines its slug, id and company parameter |
| BottomNav.CardLinkDeterminesParts | src/components/layout/BottomNav.tsx:19-24 | two profiles with the same card link have the same slug, id and company parameter |
| BottomNav.CompanyParamDeterminesName | src/components/layout/BottomNav.tsx:21 | with an injective encoding, the company parameter tells whether there is a company name and which one |
| BottomNav.CardLinkHighlightsCardTab | src/components/layout/BottomNav.tsx:24-33 | the page the card link opens highlights the card tab and no other |
| QrCode.DefaultQr | src/components/QRCodeGenerator.tsx:13-15 | the generated URL is the 150x150 service URL followed by the encoded value, or by `Example` when there is no value |
| QrCode.QrSrc | src/components/QRCodeGenerator.tsx:20 | a non-empty image URL is used as it is; otherwise the generated URL |
| QrCode.GeneratedUrlRequestsSize | src/components/QRCodeGenerator.tsx:14-15 | every generated URL asks for a 150x150 image |
| QrCode.GeneratedUrlDeterminesValue | src/components/QRCodeGenerator.tsx:13-14 | with an injective encoding, different non-empty values give different generated URLs |

## Left out

- Spring smoothing (`useSpring`, `WalletContainer.tsx:52,58`) is library physics on floating-point state. The poses are the raw transform targets the springs chase.
- Scroll tracking, scroll restoration and the mount-time `scrollTo` (`WalletContainer.tsx:103-120`) are DOM plumbing. The scroll progress is an input.
- Real timers are replaced by the deterministic clock and pending queue of `CardReveal`. No callback runs at a time other than its due time.
- Storage, Supabase, `fetch`, the router, `FileReader`, `alert` and the auth listener's subscription are not modelled. Their results are inputs and what is written to them is a field.
- The auth listener's `SIGNED_IN` branch re-runs the same fetch, which `ApplyFetch` models. The session lookup itself is not modelled.
- `encodeURIComponent` and number-to-string conversion are function parameters, not their browser definitions. The object URL that `URL.createObjectURL` makes for an onboarding avatar (`onboarding/page.tsx:96`) is an input string, the value given to `FieldPatch(AvatarUrl, …)`.
- Floating point: poses and progress are exact reals, so rounding in the browser is not captured.
- Strings are sequences of characters, not UTF-16 code units. `company[0]` of a name starting with an astral character differs.
- An update carrying a key explicitly set to `undefined` is not modelled. Such a key would erase the old value; a patch here only carries keys with values.
- `null` and a missing key are the same `None`.
- A stored value that parses but is neither a profile nor a row is not modelled, for example a number.
- MonolithService.ReplyFromObject: the reply fields are strings. A non-string truthy `output` (a number, an object) would be returned as it is.
- The onboarding submission to the n8n webhook and its boolean result are an input of `SubmissionSettled`. `n8n.ts` is not part of this model.
- The chat panel passes the page URL as a third argument that `getMonolithResponse` ignores. The service reads the same URL itself, so `RequestPayload` takes it once.
- Message ids are clock readings. Their conversion to strings is not modelled.
- Purely presentational markup, icons and class names are not modelled. The exceptions are those that depend on state: the card page's animation, stage and shadow classes, the onboarding buttons and dots, and the nav tabs.
