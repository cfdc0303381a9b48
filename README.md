# Pagination, email verification and signup form of the GAEPPADAK web front-end

This project models the three pieces of behaviour in the Next.js front-end that are logic rather than markup or HTTP glue, and proves properties of them in Dafny.

- **Popular-news and popular-videos list pages.**
  - *Pure part:* the page-button window (`renderPagination`) with its `null` ellipsis markers (modelled as `None`), and the previous/next clamps.
  - *Stateful part:* the `currentPage`, `totalPages`, list and loading state the two fetch effects update.
  - The window, the clamps and the fetch handling are textually identical in the two pages, with the news and video roles swapped:
    - src/app/main/popular-videos/page.tsx:90-125 is the same as src/app/main/popular-news/page.tsx:90-125;
    - the videos page's prev/next at 131-132 and 160-163 match the news page's 131-133 and 186-190;
    - the videos page's fetches at 22-75 match the news page's.
  - So the window is defined once (`Pagination.Window`), and one class `PopularListPage.PopularPage<P, S>` models both pages. `P` is the paginated list and `S` the companion list: `PopularPage<News, Video>` is the news page and `PopularPage<Video, News>` the videos page. The two copies agree because both are this single definition.
- **Email verification form.** This is the form in src/app/auth/verify-email/page.tsx:
  - the five-minute countdown (`timeLeft`), displayed by `formatTime` as `m:ss`;
  - the guarded code submission;
  - the check call's outcomes;
  - the resend button.
- **Signup form.** This is src/components/SignupForm.tsx:
  - the digit-only, length-capped year, month and day inputs;
  - the all-fields-required check;
  - the `YYYY-MM-DD` birthdate built with `padStart(2, "0")`;
  - the `loading`/`error` state around the signup call.

Conventions:
- Network calls are abstract outcomes passed to methods. Each asynchronous handler is split in two:
  - a `Begin…` method, or the first half of `Submit`, which runs up to the `await`;
  - a `Complete…` method, which runs after it.
- A disabled button makes its method a no-op.
- A control that is not rendered at all is a `requires`. Examples: the page controls while loading or when the list is empty, and a page button outside the window.

`PopularPage.Valid()` keeps the current page and the page count at 1 or more but does not promise `currentPage <= totalPages`, because the source does not keep it: a response that lowers the count, or has no `meta` so the count falls back to 1 (src/app/main/popular-news/page.tsx:34-43), leaves `currentPage` where it was. On page 3 such a response gives page 3 of 1. The next button is then enabled and `Math.min` moves the page back to 1 (`ShrunkCountPullsPageBack`). So the page can exceed `totalPages` between a fetch and the next click; after Next, and after a page-button click, it never does.

Modules:
- `Common`: `Option` and `Result`.
- `Decimal`: how JavaScript prints a small non-negative integer (below 10^21), and the number a digit string denotes.
- `Pagination`, `PopularListPage`, `EmailVerification` and `SignupForm`.

## Model

| member | source | states |
|---|---|---|
| Decimal.NatToString | src/app/auth/verify-email/page.tsx:50 | `${n}` of an integer 0 ≤ n < 10^21 (the page prints only numbers below 60) is a non-empty digit string without a leading zero (unless `n` is 0), one character below 10 and two from 10 to 99 |
| Decimal.NatToStringRoundTrip | src/app/auth/verify-email/page.tsx:50 | reading back the printed digits gives the printed number |
| Decimal.LeadingZerosKeepValue | src/components/SignupForm.tsx:31 | prefixing zeros keeps a digit string a digit string and does not change the number it denotes |
| EmailVerification.Seconds2 | src/app/auth/verify-email/page.tsx:50 | the seconds part is always exactly two digits that read back as the seconds (a leading `0` below ten) |
| EmailVerification.FormatTime | src/app/auth/verify-email/page.tsx:47-51 | the display has at least four characters with the colon third from the end |
| EmailVerification.FormatTimeReadsBack | src/app/auth/verify-email/page.tsx:47-51 | before the colon are digits, after it exactly two digits below 60, and minutes × 60 + seconds is the input |
| EmailVerification.FormatTimeWithinLifetime | src/app/auth/verify-email/page.tsx:36 | every value the countdown can take (0 to 300) is displayed in exactly four characters |
| EmailVerification.Guard | src/app/auth/verify-email/page.tsx:83-91 | an empty code is refused first; a non-empty code with no time left is refused as expired; otherwise the submission proceeds (each an if-and-only-if) |
| EmailVerification.GuardError | src/app/auth/verify-email/page.tsx:83-91 | a refused submission always shows a non-empty error, the "enter the code" text exactly when the code is missing and the expiry text otherwise |
| EmailVerification.CheckError | src/app/auth/verify-email/page.tsx:108-113 | a failure that is not an AxiosError shows the generic message; an AxiosError (a server rejection, a network failure or a timeout) shows its response's message, or nothing when there is no response or no message |
| EmailVerification.VerificationForm.constructor | src/app/auth/verify-email/page.tsx:35-39 | empty code, 300 seconds left, not submitting, no error, no notice |
| EmailVerification.VerificationForm.Display | src/app/auth/verify-email/page.tsx:212 | the countdown text is always four characters `m:ss` with the colon second |
| EmailVerification.VerificationForm.EnterCode | src/app/auth/verify-email/page.tsx:206 | the code field holds what was typed |
| EmailVerification.VerificationForm.Tick | src/app/auth/verify-email/page.tsx:53-64 | a tick only exists while time is left; it takes exactly one second off, keeps 0 ≤ timeLeft ≤ 300, and sets the expiry error exactly when it reaches 0 |
| EmailVerification.VerificationForm.RunOut | src/app/auth/verify-email/page.tsx:53-64 | letting the interval run always ends at 0 with the timer stopped, with the expiry error set if any time was left |
| EmailVerification.VerificationForm.Submit | src/app/auth/verify-email/page.tsx:80-100 | a no-op while a check is in flight. An empty code or no time left sets the matching error and sends nothing. Otherwise the error is cleared, `isSubmitting` turns on and `{email, authCode}` is sent. A request is only ever sent with a non-empty code and time left |
| EmailVerification.VerificationForm.CompleteCheck | src/app/auth/verify-email/page.tsx:101-116 | success sets the notice, failure sets the error from `CheckError`; `isSubmitting` is off afterwards either way |
| EmailVerification.VerificationForm.Resend | src/app/auth/verify-email/page.tsx:261-269 | a delivered resend restores 300 seconds, clears the error and sets the resent notice; a failed one sets only the failure error |
| EmailVerification.ExpiredCodeNeedsResend | src/app/auth/verify-email/page.tsx:53-91 | on a fresh form, once the countdown runs out a typed code is refused with the expiry error and no request; after a delivered resend the same code is sent |
| Pagination.Window | src/app/main/popular-news/page.tsx:90-125 | `renderPagination`'s list: at most 7 entries, from page 1 to the last page whenever there is a page; which pages appear is fixed by `WindowShowsExactly` and the other Window lemmas |
| Pagination.AllPages | src/app/main/popular-news/page.tsx:97 | `Array.from({length: n}, (_, i) => i + 1)`: n entries, entry i is page i + 1 |
| Pagination.WindowListsAllPagesWhenFew | src/app/main/popular-news/page.tsx:95-97 | with at most five pages the window is exactly pages 1..totalPages, in order, with no ellipsis |
| Pagination.WindowEndsWhenMany | src/app/main/popular-news/page.tsx:98-124 | with more than five pages the window has 6 or 7 entries, starts at page 1, ends at the last page and contains an ellipsis |
| Pagination.WindowInRangeAndIncreasing | src/app/main/popular-news/page.tsx:95-125 | every page entry lies in [1, totalPages], page entries strictly increase, and the window has at most 7 entries |
| Pagination.WindowEllipsesWellPlaced | src/app/main/popular-news/page.tsx:100-124 | no ellipsis is first, last or next to another; neighbouring page entries are consecutive pages; an ellipsis hides at least one page |
| Pagination.WindowShowsExactly | src/app/main/popular-news/page.tsx:95-125 | a page has a button if and only if the independent description `Shown` holds: every page when few; else page 1, the last page, the current page's neighbours, and the first (last) four when near the front (back) |
| Pagination.WindowContainsCurrent | src/app/main/popular-news/page.tsx:100-124 | a current page in [1, totalPages] always has its own button |
| Pagination.HiddenPageUnderEllipsis | src/app/main/popular-news/page.tsx:100-124 | every page in range without a button lies strictly between the two pages around some ellipsis |
| Pagination.PrevClamps | src/app/main/popular-news/page.tsx:132 | `Math.max(1, currentPage - 1)` is never below 1 and is one less whenever the page is at least 2 |
| Pagination.NextClamps | src/app/main/popular-news/page.tsx:187-189 | `Math.min(totalPages, currentPage + 1)` never exceeds totalPages and is one more whenever the page is below the last |
| Pagination.PrevTarget | src/app/main/popular-news/page.tsx:132 | the previous target is the larger of 1 and `currentPage - 1` |
| Pagination.NextTarget | src/app/main/popular-news/page.tsx:188 | the next target is the smaller of `totalPages` and `currentPage + 1` |
| Pagination.PrevDisabled | src/app/main/popular-news/page.tsx:133 | previous is disabled on page 1, where clicking it would not move |
| Pagination.NextDisabled | src/app/main/popular-news/page.tsx:190 | next is disabled on the last page, where clicking it would not move |
| Pagination.DisabledExactlyAtBoundary | src/app/main/popular-news/page.tsx:131-190 | within range, previous is disabled exactly when its target is the current page, and next likewise |
| PopularListPage.TotalPagesOf | src/app/main/popular-news/page.tsx:34-43 | the page count is at least 1; it is the server's `meta.totalPages` when present and non-zero, and 1 otherwise |
| PopularListPage.RequestFor | src/app/main/popular-news/page.tsx:26-29 | a fetch asks for the zero-based index one below the current page, with size 5 |
| PopularListPage.PopularPage.constructor | src/app/main/popular-news/page.tsx:14-19 | page 1 of 1, both lists empty and both loading |
| PopularListPage.PopularPage.PaginationVisible | src/app/main/popular-news/page.tsx:323 | the page controls exist only once the paginated list has loaded (the spinner at lines 217-223 replaces the page while loading) and is non-empty; `CompletePrimaryFetch` states when this holds |
| PopularListPage.PopularPage.Prev | src/app/main/popular-news/page.tsx:131-133 | the page moves to the clamped previous page unless the button is disabled (page 1); it never increases and never drops below 1 |
| PopularListPage.PopularPage.Next | src/app/main/popular-news/page.tsx:186-190 | the page moves to the clamped next page unless the button is disabled (last page); afterwards the page never exceeds totalPages, even when it did before (a shrunk count pulls it back) |
| PopularListPage.PopularPage.Goto | src/app/main/popular-news/page.tsx:173 | clicking a page button on screen selects that page, which lies in [1, totalPages] and has a button in the new window |
| PopularListPage.PopularPage.BeginPrimaryFetch | src/app/main/popular-news/page.tsx:25-29 | the spinner hides the page controls, and the request is the one for the current page |
| PopularListPage.PopularPage.CompletePrimaryFetch | src/app/main/popular-news/page.tsx:31-49 | a response sets the list (or `[]`) and the page count; a failure empties the list and keeps the count; loading ends; the page controls are visible exactly when a response delivered a non-empty list (line 323) |
| PopularListPage.PopularPage.BeginCompanionFetch | src/app/main/popular-news/page.tsx:59-63 | the companion list loads with the same page request |
| PopularListPage.PopularPage.CompleteCompanionFetch | src/app/main/popular-news/page.tsx:65-71 | the companion list is the response's list (or `[]`), or empty after a failure; its `meta` never touches the page count |
| PopularListPage.ShrunkCountPullsPageBack | src/app/main/popular-news/page.tsx:34-43 | on page 3 of 5, a response without `meta` sets the count to 1 while the page stays at 3; next is then enabled and moves to page 1 |
| SignupForm.KeepDigits | src/components/SignupForm.tsx:247 | `replace(/[^0-9]/g, "")` yields only digits and is never longer than its input |
| SignupForm.Prefix | src/components/SignupForm.tsx:247 | `slice(0, width)` is a prefix of its input, of length min(length, width) |
| SignupForm.DigitField | src/components/SignupForm.tsx:247 | a filtered field holds only digits, at most `width` of them, and is a prefix of the input's digits |
| SignupForm.KeepDigitsFixesDigits | src/components/SignupForm.tsx:247 | a string of digits passes the filter unchanged |
| SignupForm.KeepDigitsConcat | src/components/SignupForm.tsx:247 | filtering distributes over concatenation, so the digits keep their order |
| SignupForm.KeepDigitsCounts | src/components/SignupForm.tsx:247 | each digit occurs in the output exactly as often as in the input, and no other character occurs |
| SignupForm.DigitFieldIdempotent | src/components/SignupForm.tsx:263 | filtering an already filtered value leaves it unchanged |
| SignupForm.DigitFieldTakesLeadingDigits | src/components/SignupForm.tsx:279 | the field holds exactly the first `width` digits typed (all of them if fewer) |
| SignupForm.PadStart | src/components/SignupForm.tsx:31 | `padStart(width, fill)` has length max(length, width) and ends with the original string |
| SignupForm.PadZerosKeepsValue | src/components/SignupForm.tsx:31 | zero-padding a digit string keeps it digits and keeps the number it denotes |
| SignupForm.Birthdate | src/components/SignupForm.tsx:31 | the birthdate starts with the year as typed and a dash, and is six characters longer than the year when month and day have one or two characters |
| SignupForm.BirthdateShape | src/components/SignupForm.tsx:31 | with month and day of one or two characters, the birthdate is the year, `-`, the month padded to two, `-`, the day padded to two |
| SignupForm.PaddedPartDenotes | src/components/SignupForm.tsx:31 | a part of a string that equals a zero-padded digit string is digits denoting the same number |
| SignupForm.BirthdatePartsAreDigits | src/components/SignupForm.tsx:31 | both two-character parts of the birthdate are digits when the fields are |
| SignupForm.BirthdateMonthValue | src/components/SignupForm.tsx:31 | the two month characters denote the typed month |
| SignupForm.BirthdateDayValue | src/components/SignupForm.tsx:31 | the two day characters denote the typed day |
| SignupForm.PrepareSignup | src/components/SignupForm.tsx:26-40 | the fill-all error comes if and only if some field is empty; otherwise the request carries the email, the password as `passwordHash` and the nickname |
| SignupForm.PreparedBirthdateWellFormed | src/components/SignupForm.tsx:26-40 | from filtered fields, a prepared request's birthdate is a 1-4 digit year denoting the typed year, `-`, two digits denoting the month, `-`, two digits denoting the day |
| SignupForm.Form.constructor | src/components/SignupForm.tsx:10-18 | all fields empty, not loading, no error |
| SignupForm.Form.SetEmail | src/components/SignupForm.tsx:118 | the email field holds what was typed |
| SignupForm.Form.SetPassword | src/components/SignupForm.tsx:153 | the password field holds what was typed |
| SignupForm.Form.SetNickname | src/components/SignupForm.tsx:222 | the nickname field holds what was typed |
| SignupForm.Form.SetYear | src/components/SignupForm.tsx:247 | the year field keeps the typed digits cut to four, and the field invariant holds |
| SignupForm.Form.SetMonth | src/components/SignupForm.tsx:263 | the month field keeps the typed digits cut to two, and the field invariant holds |
| SignupForm.Form.SetDay | src/components/SignupForm.tsx:279 | the day field keeps the typed digits cut to two, and the field invariant holds |
| SignupForm.Form.Submit | src/components/SignupForm.tsx:22-40 | a no-op while loading. Otherwise the error is cleared first. A missing field sets the fill-all error and sends nothing. A complete form turns `loading` on and sends the prepared request |
| SignupForm.Form.CompleteSignup | src/components/SignupForm.tsx:43-48 | a failure sets the generic signup error; `loading` is off afterwards either way |

## Left out

- The services (`newsService`, `videoService`, `authService`) and the HTTP client: every call is an abstract outcome passed to a `Complete…` method (success or failure; a list response with optional `list` and `meta`).
- The initial `sendEmailAuth` on mount and the redirects: the redirect to `/signup` without an email, to `/auth/signin` after verification and to the verify page after signup. These are routing and a fire-and-forget call with no state change.
- Real time: `setInterval`/`setTimeout` scheduling, concurrent effects, and state updates after unmount. One tick is one `Tick` call, and concurrent fetches are separate Begin/Complete calls in any order the caller chooses.
- `formatDate`: it depends on JavaScript `Date` parsing and the local time zone.
- The `showPassword` toggle, the presentational components and styling, and the DTO types.
- Browser-side form validation: the `required` attributes and the code input's `maxLength={6}`. Only the handlers' own checks are modelled.
- PopularListPage.TotalPagesOf: the server's `meta.totalPages` is modelled as a natural number, so a negative or fractional count from the server is not modelled.
- EmailVerification.CheckError: an AxiosError with no response (network failure, timeout) or whose body has no `message` makes the page store `undefined`, which renders no error at all. It is modelled as the empty string.
- SignupForm.PrepareSignup: month and day are not range-checked by the form (for example month `13` is sent), and the model does not add a check either.
- Decimal.NatToString: JavaScript's exponent form from 10^21 on and its inexact printing above 2^53 are not modelled; the page only prints minutes and seconds below 60.
- Decimal.DigitsValue is total (a non-digit character counts as 0). Every property about it is stated for digit strings only.
