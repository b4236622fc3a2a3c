# V Horizon Properties storefront: verified model of the client-side logic

The V Horizon Properties storefront is a React/TypeScript web shop for real-estate listings. Most of it is view composition and thin calls to a hosted backend. This project models the parts that carry logic of their own and proves properties of them:

- the in-memory **rate limiter** that throttles logins, password resets, contact forms and searches: a fixed-window counter per key with a lockout;
- the **bounded id lists**: the compare tray (at most 4 ids, no duplicates), recently viewed listings (move to front, at most 10), the search history (move to front, at most 5) and the favourites toggle with its optimistic revert;
- the **sanitisers and validators**: phone/search/email clean-up, form-data sanitising, clamping of a property requirement, the password-strength meter and the submit guards of the password-reset page, and the contact and admin property form rules;
- the **small state machines and decision rules**: image-gallery navigation and keyboard map, best-value highlighting in the comparison table, the booking total and validation order, and the auth redirect;
- the **record mappers**: database rows to listings with the bundled listings as fallback, the page-head meta tags, and the schema.org JSON-LD blocks (`@context`, section 3.1 of JSON-LD 1.1; `@type`, section 3.5 of JSON-LD 1.1).

One Dafny module per source file: `RateLimit`, `CompareStore`, `RecentlyViewed`, `Search`, `Sanitize`, `PasswordReset`, `Gallery`, `Comparison`, `Booking`, `Favorites`, `AuthRedirect`, `Contact`, `PropertyForm`, `PropertiesHook`, `Seo` and `StructuredData`. Shared helper modules:

- `Wrappers`: `Option` and `Result`;
- `Lists`: filter, move to front, subsequence;
- `Text`: JavaScript whitespace, `trim`, `toLowerCase` on ASCII, `join`, decimal printing;
- `Json`: JavaScript objects with ordered keys, `obj[key]`, assignment and the object spread;
- `Listing`: the listing record.

Code that updates state in place is modelled as classes:

- `RateLimit.RateLimiter` has an `attempts: map<string, Entry>` field;
- `Gallery.ImageGallery` has the four state fields of the component;
- `Search.SearchBar`, `Booking.BookingForm` and `Favorites.FavoritesHook` hold the component state their handlers update.

Each method's `ensures` ties the new state to a pure function that specifies it (`CheckStep`, `Remaining`, `ResetSeconds`, `NextIndex`, `AddToHistory`, `Toggle`, …). The lemmas are proved about those functions. `sanitizeFormData` keeps its `for` loop as a method with invariants. Pure code is modelled as functions and lemmas.

Inputs the code gets from outside are parameters:

- the clock (`now` in milliseconds);
- DOMPurify's `sanitizeText`/`sanitizeHtml`, as `string -> string` functions;
- zod's `.email()` and `.url()` verdicts, as booleans;
- the outcome of each backend call (`remoteOk`, `succeeded`, `QueryOutcome`, `SearchResponse`);
- the bundled listings (`fallback`).

Dates are integer day numbers. Numbers are integers.

JavaScript truthiness is modelled where the code relies on it. `check` defaults the lockout with `||` (src/lib/rateLimit.ts:50), so a `blockDurationMs` of 0 also gives twice the window (`RateLimit.LockoutMs`). It tests `blockedUntil` for truthiness first (src/lib/rateLimit.ts:32), so a `blockedUntil` of 0 never blocks (`RateLimit.Blocked`). The comparison table's handling of missing sizes is modelled as written: with no sizes at all, every size cell is highlighted (`Comparison.NoSizesAllHighlighted`).

## Model

| member | source | states |
|---|---|---|
| RateLimit.CheckStep | src/lib/rateLimit.ts:27-57 | One check as a pure step: a locked-out entry is refused and kept unchanged. An unseen key or an expired window (`now > resetAt`) gets a fresh window with count 1 and is allowed. Otherwise the count goes up by one with the same `resetAt`. The call is allowed iff the new count is within `maxAttempts`, and a refusal sets `blockedUntil = now + lockout`. |
| RateLimit.RateLimiter.Check | src/lib/rateLimit.ts:27-57 | `check` on the map: the verdict is `CheckStep`'s, and the only change is that key's entry. The three per-key states are spelled out: locked out (refused, map unchanged), unseen/expired (fresh window), active window (count + 1, lockout past the ceiling). |
| RateLimit.Remaining | src/lib/rateLimit.ts:62-70 | `maxAttempts` for a missing or expired entry, else `max(0, maxAttempts - count)`; never negative when `maxAttempts` is not, and for a counted entry never above `maxAttempts` unless it is 0. |
| RateLimit.RateLimiter.GetRemaining | src/lib/rateLimit.ts:62-70 | Returns `Remaining` for the key's entry, `maxAttempts` for an unseen key, and changes nothing (no `modifies`). |
| RateLimit.CeilSeconds | src/lib/rateLimit.ts:81-85 | `Math.ceil(ms / 1000)` for positive `ms`: the least `s` with `ms <= s * 1000`. |
| RateLimit.ResetSeconds | src/lib/rateLimit.ts:75-89 | Ceiling seconds to `blockedUntil` while blocked, else ceiling seconds to `resetAt` while `now < resetAt`, else 0. Positive exactly in the first two cases; never negative. |
| RateLimit.RateLimiter.GetResetTime | src/lib/rateLimit.ts:75-89 | Returns `ResetSeconds` for the key's entry, 0 for an unseen key, and changes nothing. |
| RateLimit.RateLimiter.Clear | src/lib/rateLimit.ts:94-96 | Removes exactly that key; every other key's entry is unchanged. |
| RateLimit.RateLimiter.ClearAll | src/lib/rateLimit.ts:101-103 | The map becomes empty. |
| RateLimit.RateLimiter.constructor | src/lib/rateLimit.ts:18-19 | A fresh limiter has an empty map. |
| RateLimit.ClearThenCheck | src/lib/rateLimit.ts:94-96 | `clear(k)` then `check(k)` behaves as for an unseen key: allowed, with a fresh window of count 1. |
| RateLimit.CountUpInWindow | src/lib/rateLimit.ts:45-56 | Within one window, starting from count `c`, the `j`-th further check is allowed iff `c + j + 1 <= maxAttempts`. |
| RateLimit.FirstAttemptsAllowed | src/lib/rateLimit.ts:37-56 | From an unseen key, `maxAttempts` checks inside one window are all allowed and the next one is refused. |
| RateLimit.LockoutHolds | src/lib/rateLimit.ts:49-53 | The refusing check sets a lockout: its reset time is the ceiling of the lockout in seconds, and every check before the lockout ends is refused without changing the entry. |
| RateLimit.BlockedCheckIsStable | src/lib/rateLimit.ts:32-34 | While blocked, a check returns false and leaves the entry as it was, so repeating it changes nothing. |
| RateLimit.PredefinedLockouts | src/lib/rateLimit.ts:110-143 | The lockouts of the five predefined configurations: login 30 min, password reset 2 h, contact form 1 h, and 2 min (twice the window) for search and api. |
| RateLimit.ThreePerSecondScenario | src/lib/rateLimit.ts:27-89 | With 3 attempts per 1000 ms and a 2000 ms block: four immediate checks give true, true, true, false; the reset time is then 2 s; a check 2100 ms later is allowed. |
| CompareStore.AddToCompare | src/hooks/useCompareStore.ts:16-21 | Appends the id iff the tray has fewer than 4 ids and lacks it, else returns the tray unchanged; keeps "at most 4, no duplicates". |
| CompareStore.RemoveFromCompare | src/hooks/useCompareStore.ts:22-25 | Removes every occurrence of the id, keeps the others in order with their multiplicities, and keeps the invariant. |
| CompareStore.ClearCompare | src/hooks/useCompareStore.ts:26-26 | The empty tray, which satisfies the invariant; any id added next is the tray's only entry. |
| CompareStore.IsInCompare | src/hooks/useCompareStore.ts:27-27 | True iff some position of the tray holds the id. |
| CompareStore.ReachableTraysValid | src/hooks/useCompareStore.ts:15-27 | Any sequence of add/remove/clear actions from a valid tray yields a valid tray. |
| CompareStore.EmptyTrayReachesValid | src/hooks/useCompareStore.ts:15-27 | Every tray reachable from the initial `[]` has at most 4 ids and no duplicates. |
| RecentlyViewed.AddToRecent | src/hooks/useRecentlyViewed.ts:16-18 | The id comes first and occurs once; at most 10 ids remain. The rest is a subsequence of the old list, in order. Nothing is lost while there is room. A new id on a full list drops the oldest. Re-adding the front id leaves a valid list unchanged, and the result stays duplicate-free. |
| RecentlyViewed.ClearRecent | src/hooks/useRecentlyViewed.ts:19-19 | The empty list, which is valid; the next viewed id becomes the whole list. |
| Search.AddToHistory | src/components/SearchBar.tsx:105-109 | The term comes first and occurs once; at most 5 terms remain (`MAX_HISTORY`). The other terms keep their relative order. A new term on a full history drops the oldest, and no duplicates appear. |
| Search.DropdownShown | src/components/SearchBar.tsx:158-158 | Shown only when open; when open it is shown whenever there is history, and without history iff the untrimmed query has at least 2 characters. |
| Search.SearchBar.constructor | src/components/SearchBar.tsx:28-47 | Empty query and results, closed, not loading; the history is the saved one or empty. |
| Search.SearchBar.OnChange | src/components/SearchBar.tsx:143-143 | Typing sets the query and nothing else. |
| Search.SearchBar.SetOpen | src/components/SearchBar.tsx:144-144 | Focus (or a click outside) sets `isOpen` and nothing else. |
| Search.SearchBar.OnDebouncedQuery | src/components/SearchBar.tsx:62-69 | A trimmed query shorter than 2 characters clears the results without searching or touching the limiter. Otherwise the search goes through the `search:global` rate-limit gate. |
| Search.SearchBar.PerformSearch | src/components/SearchBar.tsx:71-103 | The limiter is checked once under `search:global` with the search config. A refusal performs no search and changes no state. If allowed, the sanitised query builds the filter and loading ends. A failed query keeps the results; returned rows (at most 5) become the results and open the dropdown. |
| Search.SearchBar.ClearHistory | src/components/SearchBar.tsx:111-114 | The history becomes empty; nothing else changes. |
| Search.SearchBar.HandleClear | src/components/SearchBar.tsx:128-132 | The query becomes `''`, results `[]`, closed, so the dropdown is hidden; the history is kept. |
| Search.SearchBar.HandleResultClick | src/components/SearchBar.tsx:116-121 | The current query is added to the history (first), the query is cleared, the dropdown closes, and the navigation path is `/property/<id>`. |
| Search.SearchBar.HandleHistoryClick | src/components/SearchBar.tsx:123-126 | The query becomes the term and the dropdown opens; with that term in the history the dropdown shows. |
| Sanitize.SanitizePhone | src/lib/sanitize.ts:49-51 | Keeps only digits, `+`, `-`, whitespace, `(` and `)` taken from the input; the result is trimmed. |
| Sanitize.SanitizePhoneKeeps | src/lib/sanitize.ts:49-51 | Every allowed non-space character of the input survives. |
| Sanitize.SanitizePhoneIdempotent | src/lib/sanitize.ts:49-51 | Sanitising twice equals sanitising once. |
| Sanitize.SanitizeSearchQuery | src/lib/sanitize.ts:78-83 | At most 100 characters, none of `< > " ' % ; ( ) & +`, all taken from the purified text. |
| Sanitize.SanitizeSearchQueryClean | src/lib/sanitize.ts:78-83 | A query that purification leaves alone, that is trimmed, short enough and free of forbidden characters passes unchanged. |
| Sanitize.EmailShapedIsPattern | src/lib/sanitize.ts:36-36 | The executable shape check accepts exactly the strings matched by `^[^\s@]+@[^\s@]+\.[^\s@]+$`. |
| Sanitize.SanitizeEmail | src/lib/sanitize.ts:34-43 | Succeeds iff the purified, trimmed, lower-cased string matches the pattern, and then returns that string. It is trimmed with no upper-case letters. Otherwise it fails with "Invalid email format". |
| Sanitize.SanitizedField | src/lib/sanitize.ts:97-104 | Keeps the key, leaves a non-string value as it is, and keeps a string a string. |
| Sanitize.SanitizedFieldFacts | src/lib/sanitize.ts:98-103 | A string field listed in `allowHtml` goes through `sanitizeHtml`, any other string field through `sanitizeText`. |
| Sanitize.SanitizeFormData | src/lib/sanitize.ts:89-108 | The loop returns an object with the same keys in the same order, each field sanitised as `SanitizedField` says. |
| Sanitize.NonNegative | src/lib/sanitize.ts:132-137 | A falsy (missing or 0) number becomes undefined; otherwise `max(0, x)`. |
| Sanitize.RoomCount | src/lib/sanitize.ts:134-135 | A falsy number becomes undefined; otherwise `Math.max(0, Math.min(20, x))`: 0 for a negative count, 20 above 20, the count itself in between. |
| Sanitize.SanitizeNotes | src/lib/sanitize.ts:139-139 | Missing or empty notes become undefined. Otherwise the purified notes, whole when they have at most 500 characters, else exactly their first 500. |
| Sanitize.SanitizeAmenities | src/lib/sanitize.ts:138-138 | Missing stays missing; otherwise each amenity purified, same length and order. |
| Sanitize.SanitizePropertyRequirement | src/lib/sanitize.ts:126-141 | Type and location purified (empty when missing). Each budget and size is `NonNegative` of its input, each room count `RoomCount`, the amenities `SanitizeAmenities` and the notes `SanitizeNotes`. Hence rooms lie within 0..20, budgets and sizes are non-negative, notes have at most 500 characters, and amenities are present iff given. |
| PasswordReset.ClassCount | src/pages/PasswordResetPage.tsx:38-41 | The number of character classes present (upper case, digit, symbol): at most 3, and 0 iff none occurs. |
| PasswordReset.PasswordStrength | src/pages/PasswordResetPage.tsx:33-45 | Level in 0..4 with its label and colour. 0 iff empty, 1 "Too short" iff 1-5 characters, 2 "Weak" iff 6-7 characters. From 8 characters on, 4 "Strong" iff at least two classes occur, else 3 "Good". |
| PasswordReset.LowerCaseOnlyIsGood | src/pages/PasswordResetPage.tsx:38-44 | An all-lower-case password of 8 or more characters rates "Good". |
| PasswordReset.ShortPasswordsRateByLength | src/pages/PasswordResetPage.tsx:34-36 | Below eight characters only the length matters. |
| PasswordReset.MatchIndicators | src/pages/PasswordResetPage.tsx:48-49 | "Match" and "don't match" are never both shown; neither is shown iff the confirmation is empty. |
| PasswordReset.SubmitGuard | src/pages/PasswordResetPage.tsx:51-64 | Too short iff under 6 characters; mismatch iff long enough but different; the backend is reached iff long enough and equal. |
| PasswordReset.LengthCheckedFirst | src/pages/PasswordResetPage.tsx:54-62 | A short, mismatching password is reported as too short, with the length message. |
| PasswordReset.ButtonAgreesWithGuards | src/pages/PasswordResetPage.tsx:188-188 | An enabled button only submits what passes both guards; when not loading, all such input enables it. |
| Gallery.NextIndex | src/components/ImageGallery.tsx:17-20 | `(i + 1) % n`: in range, wrapping from the last image to the first. |
| Gallery.PrevIndex | src/components/ImageGallery.tsx:22-25 | `(i - 1 + n) % n`: in range, wrapping from the first image to the last. |
| Gallery.NextPrevInverse | src/components/ImageGallery.tsx:17-25 | Previous after next, and next after previous, return to the same image. |
| Gallery.AdvanceAdd | src/components/ImageGallery.tsx:17-20 | `a + b` steps forward equal `a` steps then `b` steps. |
| Gallery.AdvanceNoWrap | src/components/ImageGallery.tsx:17-20 | Stepping forward without passing the end adds the number of steps. |
| Gallery.FullCycle | src/components/ImageGallery.tsx:17-20 | `n` steps forward return to the starting image. |
| Gallery.GalleryLayout | src/components/ImageGallery.tsx:48-141 | Nothing renders for zero images; arrows from 2 on; dots only for 2..8 images; at most 4 thumbnails (none for one image); a `+(n-4)` overlay iff more than 4. |
| Gallery.ImageGallery.constructor | src/components/ImageGallery.tsx:11-15 | Starts at image 0 with lightbox, grid and zoom off. |
| Gallery.ImageGallery.GoToNext | src/components/ImageGallery.tsx:17-20 | Index becomes `NextIndex`, zoom off, nothing else changes. |
| Gallery.ImageGallery.GoToPrev | src/components/ImageGallery.tsx:22-25 | Index becomes `PrevIndex`, zoom off, nothing else changes. |
| Gallery.ImageGallery.GoToImage | src/components/ImageGallery.tsx:27-31 | Index set, grid closed, zoom off. |
| Gallery.ImageGallery.ShowImage | src/components/ImageGallery.tsx:103-103 | A dot or thumbnail click sets the index only. |
| Gallery.ImageGallery.SetLightboxOpen | src/components/ImageGallery.tsx:150-150 | Opens or closes the lightbox only. |
| Gallery.ImageGallery.OpenOverflow | src/components/ImageGallery.tsx:136-141 | The `+(n-4)` overlay opens the lightbox on the grid. |
| Gallery.ImageGallery.ToggleGrid | src/components/ImageGallery.tsx:163-163 | Flips the grid flag. |
| Gallery.ImageGallery.ToggleZoom | src/components/ImageGallery.tsx:219-219 | Flips the zoom flag. |
| Gallery.ImageGallery.HandleKey | src/components/ImageGallery.tsx:34-46 | Keys act only while the lightbox is open. ArrowRight goes next and ArrowLeft goes back, both clearing zoom. Escape closes the lightbox and `g` toggles the grid. Any other key changes nothing. |
| Comparison.MinOf | src/components/ComparisonTable.tsx:22-22 | `Math.min` of a non-empty list: a member of the list and at most every element. |
| Comparison.MaxOf | src/components/ComparisonTable.tsx:23-26 | `Math.max` of a non-empty list: a member of the list and at least every element. |
| Comparison.Prices | src/components/ComparisonTable.tsx:21-21 | The prices, position by position. |
| Comparison.Sizes | src/components/ComparisonTable.tsx:25-25 | The sizes with a missing size read as 0, position by position. |
| Comparison.HighlightClass | src/components/ComparisonTable.tsx:28-36 | Either no class or the green class; green iff the table does not hold exactly one property and the value equals the best (min, or max when higher is better). |
| Comparison.AmenityBadges | src/components/ComparisonTable.tsx:176-189 | "None listed" iff there are no amenities. Otherwise at most the first 3 are shown plus a `+(k-3)` badge, and shown + more = k. |
| Comparison.ComparisonView | src/components/ComparisonTable.tsx:16-18 | Nothing renders for an empty list; otherwise one column per property with its amenity badges. |
| Comparison.MinPriceIsCheapest | src/components/ComparisonTable.tsx:22-22 | A price equals the minimum iff no price is lower. |
| Comparison.MaxSizeIsLargest | src/components/ComparisonTable.tsx:25-26 | A size (missing as 0) equals the maximum iff no size is larger. |
| Comparison.ColumnRules | src/components/ComparisonTable.tsx:100-124 | A price cell is green iff there are several properties and none is cheaper. The down icon goes with it. A size cell is green iff there are several properties and none is larger. The up icon also needs a size above 0. |
| Comparison.SomeCheapestHighlighted | src/components/ComparisonTable.tsx:28-36 | With two or more properties some price is highlighted, and tied prices are highlighted alike. |
| Comparison.SinglePropertyPlain | src/components/ComparisonTable.tsx:29-29 | A single property gets no highlight and no icon. |
| Comparison.NoSizesAllHighlighted | src/components/ComparisonTable.tsx:120-124 | With several properties and no sizes at all, every size cell is green but no up icon shows. |
| Booking.Nights | src/components/BookingForm.tsx:34-38 | 0 without both dates, else check-in + nights = check-out. |
| Booking.CalculateTotal | src/components/BookingForm.tsx:34-38 | Nights times price when both dates are set and check-out is after check-in, else 0; never negative for a non-negative price. |
| Booking.NotesToSend | src/components/BookingForm.tsx:66-66 | Undefined iff the trimmed notes are empty, else the trimmed notes. |
| Booking.BookingForm.constructor | src/components/BookingForm.tsx:26-31 | Closed, no dates, one guest, no notes. |
| Booking.BookingForm.HandleSubmit | src/components/BookingForm.tsx:43-76 | Guards in order: missing dates, check-out not after check-in, fewer than 1 guest. A request (with total and trimmed notes) is made iff all pass. On success the form resets and closes; otherwise nothing changes. |
| Booking.EnabledPassesDateGuards | src/components/BookingForm.tsx:191-191 | An enabled submit button (total ≠ 0) implies both dates are set, check-out after check-in, and a non-zero price. |
| Booking.RequestedTotal | src/components/BookingForm.tsx:34-38 | With check-out after check-in and a positive price the total is positive and equals nights × price. |
| Favorites.Toggle | src/hooks/useFavorites.ts:46-48 | A present id is removed everywhere, the rest kept in order with their multiplicities; an absent id is appended. |
| Favorites.ToggleTwice | src/hooks/useFavorites.ts:43-48 | Toggling twice restores the membership of every id, and the list itself when the id was absent. |
| Favorites.RemoveAppended | src/hooks/useFavorites.ts:72-76 | Removing a just-appended id gives back the old list, so a failed insert reverts exactly. |
| Favorites.FailedRemoveRestoresIds | src/hooks/useFavorites.ts:60-64 | Re-appending after a removal gives back the same multiset for an id present once. |
| Favorites.ToggledToast | src/hooks/useFavorites.ts:87-92 | The success toast says removed or added, by membership before the toggle. |
| Favorites.FavoritesHook.constructor | src/hooks/useFavorites.ts:9-9 | An empty list. |
| Favorites.FavoritesHook.IsFavorite | src/hooks/useFavorites.ts:97-100 | True iff some position of the list holds the id. |
| Favorites.FavoritesHook.Load | src/hooks/useFavorites.ts:14-39 | Signed in: the remote ids, or the list kept when the query fails. Anonymous: the stored ids, `[]` for unreadable storage, the list kept when nothing is stored. |
| Favorites.FavoritesHook.ToggleFavorite | src/hooks/useFavorites.ts:41-95 | The optimistic toggle, with a failed remote delete re-appending the id and a failed insert restoring the list (error toasts). On success the toggled list and the toggle toast. An anonymous user also gets the toggled list stored. |
| AuthRedirect.RedirectTarget | src/hooks/useAuth.ts:14-26 | No redirect while loading. Without a user: `/admin/login` for admin pages, else `/login`. A non-admin user on an admin page goes to `/`. |
| AuthRedirect.StaysIff | src/hooks/useAuth.ts:14-26 | No redirect iff still loading, or a user who is admin or on a page not requiring admin. |
| AuthRedirect.AdminLoginOnlyForAdminPages | src/hooks/useAuth.ts:15-21 | The admin login is the target iff loading is done, there is no user, and the page requires admin. |
| Contact.NameIssues | src/components/ContactForm.tsx:22-25 | No issue iff the name has 2..100 characters; each bound has its own issue. |
| Contact.EmailIssues | src/components/ContactForm.tsx:26-29 | No issue iff the email is accepted and at most 255 characters; each rule has its own issue. |
| Contact.PhoneIssues | src/components/ContactForm.tsx:30-32 | No issue iff the phone is 10 digits starting with 6-9. |
| Contact.MessageIssues | src/components/ContactForm.tsx:33-36 | No issue iff the message is missing or at most 1000 characters. |
| Contact.Issues | src/components/ContactForm.tsx:21-37 | No issue iff the whole form is valid. |
| Contact.IssuesPerRule | src/components/ContactForm.tsx:21-37 | Each issue is reported iff its own rule fails. |
| Contact.MobileExamples | src/components/ContactForm.tsx:30-32 | A 10-digit number starting with 9 passes; one starting with 5, or with 11 digits, fails. |
| Contact.NonEmpty | src/components/ContactForm.tsx:72-74 | `x \|\| null` on a string: absent iff missing or empty. |
| Contact.LeadRecord | src/components/ContactForm.tsx:68-75 | The lead copies name, email and phone; an empty message, a falsy property id and a missing title become null. |
| Contact.EmailTemplate | src/components/ContactForm.tsx:82-89 | The email copies name, email and phone, with "No message provided" and "General Inquiry" as fallbacks. |
| Contact.EmailAgreesWithLead | src/components/ContactForm.tsx:68-89 | The email shows the lead's message, or the fallback exactly when the lead has none; likewise for the property title. |
| PropertyForm.FailingFields | src/components/admin/PropertyForm.tsx:37-50 | The fields that fail their schema rule. Title ≥ 5, location and area ≥ 2 and description ≥ 10 characters. Price, beds, baths and sqft ≥ 0. Type from the five kinds and status from sale/rent/lease. The image URL must be accepted. Empty iff the form is valid. |
| PropertyForm.ResetValues | src/components/admin/PropertyForm.tsx:78-107 | Editing resets to the property's own fields; adding resets to the fixed defaults. |
| PropertyForm.DefaultsAreIncomplete | src/components/admin/PropertyForm.tsx:94-106 | The defaults fail validation (title and description are empty), so a new listing must be filled in. |
| PropertyForm.DbValues | src/components/admin/PropertyForm.tsx:113-126 | The row renames `heroImage` to `hero_image` and always sets `agent_id = "ag_02"`. |
| PropertyForm.DbValuesRoundTrip | src/components/admin/PropertyForm.tsx:113-126 | The row keeps every form field: reading it back gives the form, and two rows are equal iff their forms are. |
| PropertyForm.Save | src/components/admin/PropertyForm.tsx:128-143 | Updates by the property's id when editing, inserts otherwise, always writing `DbValues`; the toast says updated or added. |
| PropertyForm.UntouchedEditWritesBack | src/components/admin/PropertyForm.tsx:78-139 | Saving an edit form left as reset updates that property with its own values. |
| PropertiesHook.ArrayOrEmpty | src/hooks/useProperties.ts:37-38 | `x \|\| []`: a truthy value is kept, a falsy one becomes `[]`. |
| PropertiesHook.MapRow | src/hooks/useProperties.ts:28-39 | The row's own keys stay first in order, and every key other than the eight aliases keeps its value. |
| PropertiesHook.MapRowAlias | src/hooks/useProperties.ts:29-38 | Each aliased key reads the value written for it. |
| PropertiesHook.MapRowFields | src/hooks/useProperties.ts:29-38 | `heroImage`, `agentId`, `superArea`, `carpetArea`, `currentRent` and `virtualTourUrl` read the snake_case columns. `amenities` and `gallery` read `[]` when falsy. |
| PropertiesHook.MapRows | src/hooks/useProperties.ts:28-39 | Every row mapped, same length and order. |
| PropertiesHook.LoadProperties | src/hooks/useProperties.ts:17-39 | A query error, missing rows or an empty result give the bundled listings; otherwise every row is mapped, in order. |
| PropertiesHook.FirstWithId | src/hooks/useProperties.ts:46-46 | The position of the first listing whose `id` is that number, or none iff no listing has it. |
| PropertiesHook.GetPropertyById | src/hooks/useProperties.ts:45-47 | The first listing with that id, or undefined iff there is none. |
| PropertiesHook.MapRowKeepsId | src/hooks/useProperties.ts:28-39 | Mapping does not change whether a row has a given id. |
| PropertiesHook.SameIdsSamePosition | src/hooks/useProperties.ts:46-46 | The found position depends only on which listings carry the id. |
| PropertiesHook.MappedPositionKept | src/hooks/useProperties.ts:28-46 | Mapping keeps the position of the first row with a given id. |
| PropertiesHook.LoadedLookup | src/hooks/useProperties.ts:28-47 | Looking an id up in the loaded listings gives the mapped form of the first row with that id. |
| Seo.FullUrl | src/components/SEO.tsx:24-25 | Starts with the site URL; the site URL alone for a missing or empty path, else followed by the path. |
| Seo.SeoTags | src/components/SEO.tsx:38-61 | Sixteen head tags, each kind once. |
| Seo.AttributeInjective | src/components/SEO.tsx:40-60 | Each head tag is written with its own attribute and value (`name=`, `property=`, `rel=`, or the `<title>` element): two tags share both iff they are the same tag. |
| Seo.TitleCopied | src/components/SEO.tsx:40-55 | The title appears unchanged in `<title>`, `og:title` and `twitter:title`. |
| Seo.DescriptionCopied | src/components/SEO.tsx:41-56 | The description appears unchanged in the plain, Open Graph and Twitter description tags. |
| Seo.UrlTagsAgree | src/components/SEO.tsx:43-50 | The canonical link and `og:url` both carry the full URL. |
| Seo.ImageDefaulted | src/components/SEO.tsx:19-57 | `og:image` and `twitter:image` carry the given image or the default og-image URL. |
| Seo.TypeAndKeywords | src/components/SEO.tsx:20-46 | `og:type` is the given type or `website`; the keywords tag holds the joined keyword list. |
| Seo.FixedTags | src/components/SEO.tsx:51-60 | `og:site_name` and `author` are "V Horizon Properties", `twitter:card` is "summary_large_image", `robots` is "index, follow", whatever the props. |
| Seo.KeywordsExtendDefaults | src/components/SEO.tsx:22-36 | Without caller keywords, the six defaults joined by `", "`. Otherwise the defaults, then `", "`, then the caller's keywords in order. |
| StructuredData.ListingUrl | src/components/StructuredData.tsx:34-34 | Starts with `https://vhorizonproperties.com/property/`, followed by the id. |
| StructuredData.ListingUrlsDistinct | src/components/StructuredData.tsx:34-34 | Two listings get the same URL iff they have the same id. |
| StructuredData.GetStructuredData | src/components/StructuredData.tsx:10-58 | An object or null; null iff breadcrumb, or a listing block without data. |
| StructuredData.Render | src/components/StructuredData.tsx:60-61 | A script is rendered iff there is an object, and it holds that object. |
| StructuredData.OrganizationField | src/components/StructuredData.tsx:13-24 | Each key of the organisation object reads the value written beside it. |
| StructuredData.ListingField | src/components/StructuredData.tsx:29-53 | Each key of a listing object reads the value written beside it. |
| StructuredData.OrganizationShape | src/components/StructuredData.tsx:12-15 | The organisation block is an object with `@context` `https://schema.org` and `@type` `RealEstateAgent`. |
| StructuredData.OrganizationAddressShape | src/components/StructuredData.tsx:20-24 | Its `address` is a `PostalAddress` with country IN and region Delhi. |
| StructuredData.ListingShape | src/components/StructuredData.tsx:29-32 | A listing block is an object of `@type` `RealEstateListing` whose `name` is the listing's title. |
| StructuredData.ListingPage | src/components/StructuredData.tsx:34-34 | Its `url` is the listing's page URL. |
| StructuredData.ListingRooms | src/components/StructuredData.tsx:46-47 | `numberOfRooms` is beds and `numberOfBathroomsTotal` is baths. |
| StructuredData.ListingPrice | src/components/StructuredData.tsx:36-40 | The price specification carries the price in INR. |
| StructuredData.ListingAddress | src/components/StructuredData.tsx:41-45 | The address is the listing's location in IN. |
| StructuredData.ListingFloorSize | src/components/StructuredData.tsx:48-52 | The floor size is sqft with unit code SQF. |

## Left out

- Backend and browser I/O are outcomes passed in, not modelled. This covers Supabase queries and inserts, react-query caching, `localStorage` and zustand `persist`, toasts, navigation, EmailJS, the 300 ms debounce and the click-outside listener.
- DOMPurify (`sanitizeText`, `sanitizeHtml`) is an uninterpreted `string -> string` parameter. `sanitizeUrl` depends on the browser `URL` parser and is not part of this model.
- zod's `.email()` and `.url()` verdicts and `z.coerce` are inputs; the numeric form fields are taken as already-coerced integers.
- Numbers are unbounded integers. Floating-point prices, `Number(...)` coercion of non-numeric input, and `toLocaleString` formatting are not modelled.
- String lengths count characters, not UTF-16 code units. `toLowerCase` is modelled on ASCII letters only, and `\s` on the ASCII and common Unicode space characters of `Text.IsSpace`.
- Favorites.FavoritesHook.ToggleFavorite and Search.SearchBar.PerformSearch: each handler is modelled as one atomic step. Calls never overlap, so a second toggle or search cannot run while a backend call is pending. The optimistic list shown during the remote call is not a visible intermediate state. The render-time `favorites` closure and the `prev` of the state updaters are taken to be the same list. Out-of-order search responses, where the last one to arrive sets `results`, are not modelled.
- Search.SearchBar.PerformSearch: the filter string sent to the backend is modelled by its construction, not by what the backend's `ilike` matching returns; the returned rows are an input.
- PropertiesHook.LoadProperties: the bundled listings (`src/lib/data.ts`) are a parameter; src/lib/data.ts and src/lib/types.ts are not part of this model, so the row type is an untyped JSON object.
- Sanitize.SanitizeSearchQuery: the contract states the length bound, the absence of forbidden characters and that every character comes from the purified text, plus the clean-input lemma; it does not state the output position by position.
- Sanitize.SanitizePhone: the contract states which characters remain and that the result is trimmed, plus the keep and idempotence lemmas; it does not state the output position by position.
- The password-reset token effect, `ForgotPasswordPage`, `AdminLoginPage`, `AuthCallback` and `AuthContext` are asynchronous auth flows over the backend and are not part of this model.
- The other hooks (`useBookings`, `useSavedSearches`, `useMessages`, `usePropertyAlerts`) and all view-only components are not part of this model.
- JSON serialisation (`JSON.stringify`) of the structured-data object is not modelled; `Render` returns the object itself.
