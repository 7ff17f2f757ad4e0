# KalaHasta dashboard logic in Dafny

KalaHasta is a client-only React dashboard for artisans. This project models the logic underneath its markup and proves what that logic promises:

- **Pricing** (`pricing.dfy`, module `Pricing`, from `ProductsShowcase.tsx`):
  - the manual price calculator (material plus labour, then overhead, then margin, then `Math.round`);
  - the suggested price band scaled by complexity and weeks of work;
  - adding a product from the form, with its defaults.
- **Recording bin** (`recordings.dfy`, module `Recordings`, from `RecordingBin.tsx`): the active recordings and the soft-delete bin, with move, restore, purge and approve operations keyed by id.
- **Welcome card recorder** (`story_card.dfy`, module `StoryCard`, from `WelcomeStoryCard.tsx`):
  - naming and appending finished recordings;
  - deleting into the stored bin;
  - the "recent three" view.
- **Identity provider** (`auth.dfy`, module `Auth`, from `AuthContext.tsx`): a class holding the users list, the email-to-code map, the session and the per-user storage keys. Codes are issued, checked and consumed.
- **Notification feeds** (`feeds.dfy`, module `Feeds`, from `CustomerMessages.tsx` and `AudienceOpportunities.tsx`):
  - bounded prepend of the five newest items;
  - reply marking;
  - the canned translator;
  - the "Just now / Nh ago / Dd ago" age labels.
- **Account settings** (`account_settings.dfy`, module `AccountSettings`):
  - the profile form and the four-field update it sends;
  - the password rule order and field reset;
  - how messages are styled.
- **Certificates** (`certificates.dfy`, module `Certificates`, from `Certifications.tsx` and `AuthenticityLegacy.tsx`):
  - certificate creation (verification link, story choice, append);
  - the "KH-" number fallback on load;
  - the download file name.
- **Shared helpers** (`common.dfy`, module `Common`): JavaScript's decimal rendering of whole numbers, `padStart`, `findIndex`, `slice(-n)`, ASCII case mapping and `includes`.

Modelling choices:
- The clock (`Date.now()`) and `Math.random()` are parameters. A random draw is a real in [0, 1).
- Browser storage is represented by the state it holds:
  - list fields of the classes, which the source saves after each change;
  - an optional stored list where the source reads a key that may be absent;
  - the provider's `map<string, Blob>` of per-user keys.
- Numbers in the pricing code are exact reals.

Behaviour worth noting:
- The calculator has no input for the overhead percentage. It stays at its initial 20, and `UpdateCalculator` cannot change it.
- Days of work are not forced positive. `daysToCreate || 1` replaces only 0 and NaN, so a negative number of days passes through to the suggested price.
- An unset complexity gets the multiplier 1, like Medium.

## Model

| member | source | states |
|---|---|---|
| Common.FirstIndex | src/contexts/AuthContext.tsx:187 | `findIndex`: None exactly when no element matches; otherwise the index of a matching element with no match before it |
| Common.NatToString | src/components/dashboard/WelcomeStoryCard.tsx:65 | `n.toString()` for a whole number: at least one decimal digit, and a leading zero only for 0 |
| Common.NatToStringRoundTrip | src/components/dashboard/RecordingBin.tsx:166-170 | reading the rendered digits back gives the number |
| Common.NatToStringLength | src/contexts/AuthContext.tsx:54-56 | a number in [10^k, 10^(k+1)) is rendered with exactly k + 1 characters |
| Common.PadStart | src/components/dashboard/RecordingBin.tsx:169 | `padStart`: the length is the larger of the width and the text length, the text is a suffix, and everything before it is the fill character |
| Common.ToUpper | src/components/dashboard/Certifications.tsx:36 | `toUpperCase` on ASCII: same length, each character mapped on its own |
| Common.ToLower | src/components/dashboard/AudienceOpportunities.tsx:41 | `toLowerCase` on ASCII: same length, each character mapped on its own |
| Common.LastChars | src/components/dashboard/Certifications.tsx:36 | `slice(-n)` for n > 0: the last min(n, length) characters of the text |
| Pricing.Round | src/components/dashboard/ProductsShowcase.tsx:100 | `Math.round`: the result lies within half a unit of x, and halves round up |
| Pricing.RoundMonotone | src/components/dashboard/ProductsShowcase.tsx:100 | rounding never reverses the order of two values |
| Pricing.RoundBand | src/components/dashboard/ProductsShowcase.tsx:113-117 | for x >= 0, round(0.9x) <= round(x) <= round(1.1x) |
| Pricing.CalculatePrice | src/components/dashboard/ProductsShowcase.tsx:92-101 | the step-by-step computation equals the closed form round((m + h·r)·(1 + o/100)·(1 + p/100)) |
| Pricing.CalculatePriceOfNothing | src/components/dashboard/ProductsShowcase.tsx:92-101 | no material and no hours give price 0 whatever the rate, overhead and margin |
| Pricing.CalculatePriceExample | src/components/dashboard/ProductsShowcase.tsx:33-39 | with the initial rate 100, overhead 20 and margin 30, material 1000 and 10 hours cost exactly 3120 |
| Pricing.CalculatePriceMonotone | src/components/dashboard/ProductsShowcase.tsx:95-101 | for non-negative inputs, raising any of material, hours, rate, overhead or margin (alone or together) never lowers the price |
| Pricing.Multiplier | src/components/dashboard/ProductsShowcase.tsx:109-111 | 1.5 exactly for High, 0.8 exactly for Low, 1 exactly for Medium or unset |
| Pricing.DaysOrDefault | src/components/dashboard/ProductsShowcase.tsx:107 | `daysToCreate \|\| 1`: unset, NaN and 0 become 1, any other value is kept, and the result is never 0 |
| Pricing.SuggestedPriceRange | src/components/dashboard/ProductsShowcase.tsx:104-118 | min, max and suggested are the nearest integers to 0.9a, 1.1a and a (a = base · multiplier · days/7); min <= suggested <= max when a >= 0 |
| Pricing.SuggestedPriceRangeOrdered | src/components/dashboard/ProductsShowcase.tsx:113-117 | for base >= 0 and days >= 1, each band is ordered, and Low <= Medium <= High for min, suggested and max |
| Pricing.SuggestedPriceRangeExamples | src/components/dashboard/ProductsShowcase.tsx:104-118 | 3120 at Medium over 7 days gives (2808, 3432, 3120); at High over 14 days it gives (8424, 10296, 9360) |
| Pricing.CoerceNumber | src/components/dashboard/ProductsShowcase.tsx:370 | `parseFloat(text) \|\| 0`: unparsable text gives 0, and any number is kept |
| Pricing.UpdateCalculator | src/components/dashboard/ProductsShowcase.tsx:370-397 | one input takes the coerced value, the others keep theirs, and the overhead is never changed |
| Pricing.UpdateCalculatorMonotone | src/components/dashboard/ProductsShowcase.tsx:370-397 | typing a larger non-negative value into any input never lowers the calculated price |
| Pricing.NewProduct | src/components/dashboard/ProductsShowcase.tsx:126-137 | a zero price becomes the suggested price; days default to 1 and are never 0; complexity defaults to Medium; the other fields are copied from the form; the id is the clock in digits |
| Pricing.Showcase.constructor | src/components/dashboard/ProductsShowcase.tsx:20-39 | starts with the saved products, the empty form, the initial calculator and both panels closed |
| Pricing.Showcase.SetCalculatorField | src/components/dashboard/ProductsShowcase.tsx:370-397 | only the calculator changes, as UpdateCalculator says |
| Pricing.Showcase.SetPrice | src/components/dashboard/ProductsShowcase.tsx:423 | the form price becomes the coerced number, and nothing else changes |
| Pricing.Showcase.SetDaysToCreate | src/components/dashboard/ProductsShowcase.tsx:235 | the form days become the parsed value (possibly NaN), and nothing else changes |
| Pricing.Showcase.SetName | src/components/dashboard/ProductsShowcase.tsx:225 | the form name becomes the typed text, and nothing else changes |
| Pricing.Showcase.SetDescription | src/components/dashboard/ProductsShowcase.tsx:246 | the form description becomes the typed text, and nothing else changes |
| Pricing.Showcase.SetComplexity | src/components/dashboard/ProductsShowcase.tsx:258 | the form complexity becomes the chosen level, and nothing else changes |
| Pricing.Showcase.SetMaterials | src/components/dashboard/ProductsShowcase.tsx:271 | the form materials become the typed text, and nothing else changes |
| Pricing.Showcase.AddProduct | src/components/dashboard/ProductsShowcase.tsx:120-156 | adds iff name and description are non-empty. Otherwise nothing changes. On success exactly one NewProduct is appended after the unchanged earlier products, the form resets and both panels close |
| Recordings.IndexOf | src/components/dashboard/RecordingBin.tsx:126 | None iff no recording has the id; otherwise the first position holding it |
| Recordings.FindById | src/components/dashboard/RecordingBin.tsx:126 | `find`: None iff the id is absent; otherwise the first recording with the id |
| Recordings.Without | src/components/dashboard/RecordingBin.tsx:128 | `filter`: keeps exactly the recordings whose id differs. It is the identity when the id is absent and strictly shorter when present |
| Recordings.WithoutConcat | src/components/dashboard/RecordingBin.tsx:128 | filtering distributes over concatenation, so untouched recordings keep their relative order |
| Recordings.UniqueConcat | src/components/dashboard/RecordingBin.tsx:129 | two lists joined have unique ids iff each has unique ids and they share none |
| Recordings.WithoutUnique | src/components/dashboard/RecordingBin.tsx:152 | filtering keeps ids unique |
| Recordings.WithoutUniqueLength | src/components/dashboard/RecordingBin.tsx:128 | with unique ids, filtering out a present id removes exactly one recording |
| Recordings.MovePreservesUniqueness | src/components/dashboard/RecordingBin.tsx:125-149 | moving the first match to the end of the other list conserves the combined count and keeps ids unique across both lists |
| Recordings.PurgePreservesUniqueness | src/components/dashboard/RecordingBin.tsx:151-155 | purging from the bin keeps ids unique across both lists |
| Recordings.Approve | src/components/dashboard/RecordingBin.tsx:158-160 | same length; `approved` becomes true exactly on recordings with the id; every other field and recording is unchanged |
| Recordings.ApproveIdempotent | src/components/dashboard/RecordingBin.tsx:157-164 | approving twice equals approving once |
| Recordings.ApproveKeepsIds | src/components/dashboard/RecordingBin.tsx:157-164 | approving changes no id |
| Recordings.TwoDigits | src/components/dashboard/RecordingBin.tsx:169 | a number below 100, padded to two, is exactly two digits that read back as the number |
| Recordings.FormatTime | src/components/dashboard/RecordingBin.tsx:166-170 | `m:ss`: the minutes floor(s/60), a colon, then exactly two digits reading s mod 60 |
| Recordings.FormatTimeRoundTrip | src/components/dashboard/WelcomeStoryCard.tsx:180-184 | minutes · 60 + seconds read back from the text gives s |
| Recordings.RecordingLibrary.constructor | src/components/dashboard/RecordingBin.tsx:36-60 | starts with the saved recordings and bin |
| Recordings.RecordingLibrary.DeleteRecording | src/components/dashboard/RecordingBin.tsx:125-136 | an absent id changes neither list. Otherwise every copy leaves the list and the first goes to the end of the bin. With unique ids the count is conserved and ids stay unique |
| Recordings.RecordingLibrary.RestoreRecording | src/components/dashboard/RecordingBin.tsx:138-149 | the mirror of delete: an absent id changes neither list; otherwise the first binned match goes to the end of the list, the count is conserved and ids stay unique |
| Recordings.RecordingLibrary.PermanentlyDelete | src/components/dashboard/RecordingBin.tsx:151-155 | every binned recording with the id is removed, the active list is untouched, and ids stay unique |
| Recordings.RecordingLibrary.ApproveStory | src/components/dashboard/RecordingBin.tsx:157-164 | the list becomes Approve of the old list, the bin is untouched, and the dialog closes |
| StoryCard.RecordingName | src/components/dashboard/WelcomeStoryCard.tsx:66 | "Recording " followed by digits, with no leading zero, that read back as the previous count + 1 |
| StoryCard.NewRecording | src/components/dashboard/WelcomeStoryCard.tsx:64-72 | the finished recording: clock id, numbered name, the given duration, audio, transcription and story, and not yet approved |
| StoryCard.Reverse | src/components/dashboard/WelcomeStoryCard.tsx:213 | `reverse`: same length, with element k equal to element length-1-k of the input |
| StoryCard.Recent | src/components/dashboard/WelcomeStoryCard.tsx:213 | `slice(-3).reverse()`: min(3, n) recordings, the k-th being the k-th from the end |
| StoryCard.StoryRecorder.constructor | src/components/dashboard/WelcomeStoryCard.tsx:28-41 | starts with the saved recordings and the stored bin |
| StoryCard.StoryRecorder.FinishRecording | src/components/dashboard/WelcomeStoryCard.tsx:62-77 | the new recording is appended at the end under the name for the old count and becomes current; the bin is untouched |
| StoryCard.StoryRecorder.DeleteRecording | src/components/dashboard/WelcomeStoryCard.tsx:158-170 | the list loses every copy of the id and keeps the others in order. A present id pushes its first match onto the stored bin, an absent bin reading as empty. An absent id changes neither |
| Auth.WithId | src/contexts/AuthContext.tsx:81-84 | the new user carries the given id and every field of the registration data |
| Auth.Merge | src/contexts/AuthContext.tsx:183 | `{ ...user, ...updates }`: each present field of the update wins and each absent one keeps the user's |
| Auth.MergeProperties | src/contexts/AuthContext.tsx:183 | an empty update is the identity, and merging the same update twice equals merging it once |
| Auth.GenerateOTP | src/contexts/AuthContext.tsx:54-56 | for r in [0, 1): exactly six digits with value in [100000, 999999] |
| Auth.FirstWithEmail | src/contexts/AuthContext.tsx:109 | None iff no user has the email; otherwise the first user with it |
| Auth.IndexWithId | src/contexts/AuthContext.tsx:187 | None iff no user has the id; otherwise the first position holding it |
| Auth.WithoutUser | src/contexts/AuthContext.tsx:163 | keeps exactly the users whose id differs; the identity when the id is absent |
| Auth.WithoutUserConcat | src/contexts/AuthContext.tsx:163 | filtering distributes over concatenation, so the users kept stay in their order and number |
| Auth.UserDataKeys | src/contexts/AuthContext.tsx:168-170 | the three per-user data keys are distinct, and none of them is a delete-bin key |
| Auth.KeysDiffer | src/contexts/AuthContext.tsx:168-170 | the products, recordings, certifications and delete-bin key families never collide, whatever the ids |
| Auth.AuthStore.constructor | src/contexts/AuthContext.tsx:40-52 | starts with the saved users, session and store, and no codes |
| Auth.AuthStore.SendOTP | src/contexts/AuthContext.tsx:58-71 | stores a fresh six-digit code for the email, replacing any earlier one, and returns true; nothing else changes |
| Auth.AuthStore.CreateAccount | src/contexts/AuthContext.tsx:74-103 | succeeds iff a non-empty stored code equals the one given, and otherwise changes nothing. On success the user is appended and signed in, and the code is deleted so it cannot be reused |
| Auth.AuthStore.Login | src/contexts/AuthContext.tsx:106-121 | succeeds iff some user has the email, the password is ignored, and the session becomes the first such user |
| Auth.AuthStore.LoginWithOTP | src/contexts/AuthContext.tsx:124-151 | succeeds iff the code matches and a user has the email. On success the session is set and only that code is removed. On failure nothing changes |
| Auth.AuthStore.Logout | src/contexts/AuthContext.tsx:153-156 | the session is cleared and nothing else changes |
| Auth.AuthStore.DeleteAccount | src/contexts/AuthContext.tsx:158-177 | without a session nothing changes. Otherwise every user with the id is removed, the session is cleared, and exactly the three data keys leave the store. Delete-bin keys and their values are kept |
| Auth.AuthStore.UpdateProfile | src/contexts/AuthContext.tsx:179-199 | without a session nothing changes. Otherwise the first user with the session id is replaced by the merged record (the list is unchanged when there is none), and the session becomes the merged record |
| Feeds.FormatTimeAgo | src/components/dashboard/CustomerMessages.tsx:153-161 | with h the whole hours elapsed: "Just now" exactly when h < 1, "<h>h ago" when h < 24, otherwise "<floor(h/24)>d ago" |
| Feeds.FormatTimeAgoRoundTrip | src/components/dashboard/AudienceOpportunities.tsx:109-117 | the number in an hour or day label reads back as the hours, or the whole days, and the suffix names the unit |
| Feeds.PrependBounded | src/components/dashboard/CustomerMessages.tsx:107 | `[x, ...prev.slice(0, 4)]`: at most five items, the new one first, then the previous first four in order |
| Feeds.Pick | src/components/dashboard/CustomerMessages.tsx:93-94 | `list[Math.floor(r * list.length)]` for r in [0, 1) is an element of the list |
| Feeds.NewMessage | src/components/dashboard/CustomerMessages.tsx:78-105 | a message from one of the four customers with one of the four questions, clock id and time, not yet replied to |
| Feeds.MockMessages | src/components/dashboard/CustomerMessages.tsx:39-76 | three messages with ids "1" to "3", received 2, 5 and 8 hours earlier. Only the second is replied to, and it alone carries a reply and its translation |
| Feeds.MockMessageAges | src/components/dashboard/CustomerMessages.tsx:153-161 | the mock messages read "2h ago", "5h ago" and "8h ago" |
| Feeds.TranslateToCustomerLanguage | src/components/dashboard/CustomerMessages.tsx:139-151 | the canned reply for each of the six listed languages; any other language returns the text unchanged |
| Feeds.TranslationLanguages | src/components/dashboard/CustomerMessages.tsx:141-148 | the canned languages are exactly German, French, Japanese, Spanish, Chinese and Arabic, so an English reply is sent as typed |
| Feeds.MarkReplied | src/components/dashboard/CustomerMessages.tsx:122-131 | same length. Messages with the id become replied with the reply and its translation, and keep their other fields. All other messages are unchanged |
| Feeds.MessageFeed.constructor | src/components/dashboard/CustomerMessages.tsx:20-23 | an empty selection, reply and dialog |
| Feeds.MessageFeed.Generate | src/components/dashboard/CustomerMessages.tsx:39-76 | the feed becomes the mock messages |
| Feeds.MessageFeed.Tick | src/components/dashboard/CustomerMessages.tsx:30-34 | a message is added only when the gate draw exceeds 0.8; otherwise the feed is unchanged |
| Feeds.MessageFeed.AddNewMessage | src/components/dashboard/CustomerMessages.tsx:78-108 | the new unreplied message goes first and the feed keeps at most five |
| Feeds.MessageFeed.HandleReply | src/components/dashboard/CustomerMessages.tsx:110-114 | selects the message, opens the dialog and clears the reply |
| Feeds.MessageFeed.SetReplyText | src/components/dashboard/CustomerMessages.tsx:264 | only the reply text changes |
| Feeds.MessageFeed.SendReply | src/components/dashboard/CustomerMessages.tsx:116-137 | nothing changes without a selection or with a blank (trimmed-empty) reply. Otherwise messages become MarkReplied with the translated reply, the length is kept, and the dialog closes and clears |
| Feeds.CraftOrDefault | src/components/dashboard/AudienceOpportunities.tsx:33 | `primaryCraft \|\| 'art'`: "art" for a missing or empty craft, the craft otherwise |
| Feeds.GenerateOpportunities | src/components/dashboard/AudienceOpportunities.tsx:32-67 | four items with ids "1" to "4", of kinds view, feature, trend and inquiry, aged 2, 6, 12 and 24 hours (newest first) |
| Feeds.GeneratedAges | src/components/dashboard/AudienceOpportunities.tsx:37-64 | when generated, the items read "2h ago", "6h ago", "12h ago" and "1d ago" |
| Feeds.HoursLabel | src/components/dashboard/CustomerMessages.tsx:153-159 | a timestamp k whole hours old, 1 <= k < 24, is labelled "<k>h ago" |
| Feeds.DaysLabel | src/components/dashboard/CustomerMessages.tsx:153-161 | a timestamp k >= 24 whole hours old is labelled "<floor(k/24)>d ago" |
| Feeds.NewOpportunity | src/components/dashboard/AudienceOpportunities.tsx:69-89 | clock id and time, a kind among view, feature, inquiry and trend, and a location and audience from their lists |
| Feeds.OpportunityFeed.constructor | src/components/dashboard/AudienceOpportunities.tsx:16 | the feed starts empty |
| Feeds.OpportunityFeed.Generate | src/components/dashboard/AudienceOpportunities.tsx:32-67 | the feed becomes the four generated items |
| Feeds.OpportunityFeed.Tick | src/components/dashboard/AudienceOpportunities.tsx:23-27 | an opportunity is added only when the gate draw exceeds 0.7 |
| Feeds.OpportunityFeed.AddNewOpportunity | src/components/dashboard/AudienceOpportunities.tsx:69-92 | the new item goes first, the feed keeps at most five, and its kind is one of the four |
| AccountSettings.InitialForm | src/components/dashboard/AccountSettings.tsx:11-19 | each profile field comes from the signed-in user, or is empty; the password fields start empty |
| AccountSettings.SetField | src/components/dashboard/AccountSettings.tsx:24-29 | the named field takes the value and no other field changes |
| AccountSettings.FormExtensionality | src/components/dashboard/AccountSettings.tsx:11-19 | forms that agree on every field are equal |
| AccountSettings.SetFieldLaws | src/components/dashboard/AccountSettings.tsx:24-29 | retyping a field's value changes nothing, and the second of two edits to a field wins |
| AccountSettings.ProfileUpdates | src/components/dashboard/AccountSettings.tsx:37-42 | the update carries exactly fullName, email, mobile and primaryCraft |
| AccountSettings.UnchangedFormKeepsProfile | src/components/dashboard/AccountSettings.tsx:31-49 | submitting the untouched form leaves the profile unchanged, except that a missing mobile becomes empty |
| AccountSettings.MessageStyles | src/components/dashboard/AccountSettings.tsx:128-133 | both success messages are styled as successes, and both validation errors as errors |
| AccountSettings.PasswordChangeMessage | src/components/dashboard/AccountSettings.tsx:51-82 | a mismatch is reported whatever the length; a matching password under 6 characters gets the length error; the result is a success iff the passwords match and have at least 6 characters |
| AccountSettings.SettingsForm.constructor | src/components/dashboard/AccountSettings.tsx:11-22 | the initial form, no message, not loading, on the profile tab |
| AccountSettings.SettingsForm.HandleInputChange | src/components/dashboard/AccountSettings.tsx:24-29 | the form becomes SetField of the old form |
| AccountSettings.SettingsForm.SelectTab | src/components/dashboard/AccountSettings.tsx:104-114 | only the active tab changes |
| AccountSettings.SettingsForm.HandleProfileUpdate | src/components/dashboard/AccountSettings.tsx:31-49 | the provider merges exactly the four profile fields into the signed-in user (and does nothing without one); the merged record becomes the session and replaces that user's entry in the users list (the list is unchanged when the user is not in it); then a success message is shown |
| AccountSettings.SettingsForm.HandlePasswordChange | src/components/dashboard/AccountSettings.tsx:51-82 | the message is PasswordChangeMessage of the old form. On success only the three password fields are cleared; otherwise the form is unchanged. The current password is never checked |
| Certificates.CertificateNumber | src/components/dashboard/Certifications.tsx:36 | a non-empty stored number is kept. Otherwise the number is "KH-" plus the upper-cased last six characters of the id (or the whole id), of length 3 + min(6, \|id\|). It is never empty |
| Certificates.Numbered | src/components/dashboard/Certifications.tsx:33-37 | the number is filled in and every other field is unchanged |
| Certificates.LoadCertifications | src/components/dashboard/Certifications.tsx:29-39 | an absent stored list keeps the current one. Otherwise the stored certificates are kept in count and order, each numbered |
| Certificates.LoadIdempotent | src/components/dashboard/Certifications.tsx:29-39 | loading a loaded list again changes nothing |
| Certificates.DownloadFileName | src/components/dashboard/Certifications.tsx:64 | "KalaHasta_Certificate_" + number + ".txt" |
| Certificates.GenerateQRCode | src/components/dashboard/AuthenticityLegacy.tsx:33-37 | "https://kalahasta.com/verify/" + user id (or "undefined") + "/" + the clock in digits |
| Certificates.StoryFor | src/components/dashboard/AuthenticityLegacy.tsx:40-48 | the last recording's story when there is one and it is non-empty, otherwise the default story naming product, maker and craft |
| Certificates.NewCertification | src/components/dashboard/AuthenticityLegacy.tsx:43-50 | verified, with the given product name, the verification link, the chosen story, the clock id and no number yet |
| Certificates.ToUpperDigits | src/components/dashboard/Certifications.tsx:36 | upper-casing leaves a string of digits unchanged |
| Certificates.CreatedCertificateNumber | src/components/dashboard/Certifications.tsx:36 | a certificate made by the legacy panel is numbered "KH-" plus the last six digits of its creation time |
| Certificates.LegacyPanel.constructor | src/components/dashboard/AuthenticityLegacy.tsx:16-27 | the stored certificates (none when the key is absent), no selection, and the dialog closed |
| Certificates.LegacyPanel.OpenDialog | src/components/dashboard/AuthenticityLegacy.tsx:73 | only the dialog opens |
| Certificates.LegacyPanel.SelectProduct | src/components/dashboard/AuthenticityLegacy.tsx:139 | only the selection changes |
| Certificates.LegacyPanel.CreateCertification | src/components/dashboard/AuthenticityLegacy.tsx:39-58 | exactly one new certificate is appended after the unchanged earlier ones and the list is stored; the dialog closes and the selection resets to "" |
| Certificates.LegacyPanel.ConfirmCreate | src/components/dashboard/AuthenticityLegacy.tsx:163-164 | with no product chosen nothing happens; otherwise the chosen product is certified |

## Left out

- Browser storage and JSON: `localStorage` reads and writes and JSON (de)serialisation are not modelled byte for byte. Saved lists are the classes' list fields, and stored keys that may be absent are `Option` fields. Storage or JSON failures (the `catch` branches, such as "Failed to update profile") are not modelled.
- The Blob to byte-array conversion of recordings is not modelled; audio is an opaque `seq<bv8>`.
- Media and platform APIs are not modelled: MediaRecorder, microphone access, audio playback, sharing, clipboard, file reading, downloads, `alert` and `console`.
- Image upload and the staging-view generator of the showcase are not modelled; the form's image lists are carried as given.
- Timers are not modelled. Each interval firing is a `Tick` call with its gate draw; scheduling and clean-up are not modelled.
- Clock reads are not modelled. One `now` stands for all clock reads of one operation, although the source reads the clock several times (id, QR link, timestamp).
- Locale-dependent date and time formatting is not modelled.
- Floating point is not modelled: pricing uses exact reals, so agreement with IEEE-754 doubles is not claimed.
- Pricing.Round: the rounding contract is stated over exact reals, not doubles.
- Case mapping: `toUpperCase`/`toLowerCase` map ASCII letters only. Other letters are kept as they are, although JavaScript maps them too.
- String length: lengths count Unicode scalar values. JavaScript counts UTF-16 code units, which differs for characters outside the Basic Multilingual Plane. This affects the 6-character password rule and `slice(-6)`.
- Recordings.FormatTime: takes whole non-negative seconds only. Negative or fractional input, which the source would render with a sign or a fraction, is not modelled.
- StoryCard.StoryRecorder.FinishRecording: the duration is a parameter. The source's `onstop` closure captures the recording time when recording starts, so the elapsed time is not promised. The same closure also captures the recordings list as it was when recording started: the name is counted from that list and the new recording is appended to it, so a recording deleted while recording reappears when it stops. The model names and appends against the list at the time recording stops.
- Static texts are not modelled beyond what the model uses:
  - the mock transcription and story of a new recording are parameters;
  - the certificate file's content is not built; only its file name is;
  - the opportunity and message texts are modelled, but no property is proved about them.
- The translation lookup is modelled as a map over the six languages. JavaScript's object lookup would also find inherited property names such as "constructor"; that quirk is not modelled.
- `loading` flags on async providers are not modelled beyond the settings form's flag. `async`/`await` is treated as sequential.
- Auth.Merge: a present field of the update always wins. A JavaScript spread of a field explicitly set to `undefined` is not distinguished from an absent field.
- Common.NatToString: renders whole numbers in plain decimal only. JavaScript switches to exponential notation from 1e21 upwards; the dashboard formats only clock values, counts and durations, far below that.
- Presentation, view switching and all JSX are not modelled. The exceptions are the handlers named in the table above: the product form's name, description, days, complexity, materials and price inputs, the calculator inputs, the reply text, the settings form inputs and tabs, and the certificate dialog.
