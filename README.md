# Online ticketing client: a Dafny model of its core logic

This project models the logic of a React Native app for buying event tickets, and proves
properties of that model. It covers these parts:

- **Ticket selection:** per-row quantities, the running total, and the rule that enables the
  continue button.
- **Price badge:** the one on the event detail screen.
- **Ticket tabs:** the main and sub tab bars on the "my tickets" screen.
- **Checkout screen:**
  - the 15:00 reservation countdown;
  - the order total;
  - the guard chain run before an order is posted;
  - the order body and the handling of the response;
  - the classification of the embedded payment page's URLs.
- **Forms:** the step machines and field rules of the password-reset and registration forms.
- **Recommended-events search:** parameter clean-up, response defaults, and the error-message
  precedence.
- **Authentication context:** JWT payload decoding with expiry, the start-up restore, login
  (customers only) and logout.
- **Chatbot message log:** an append-only list kept as one encrypted entry of the device store.
- **Avatar upload:** the case-insensitive file-extension check.

## How the model is built

- **One module per source file**, plus two shared ones:
  - `Wrappers` holds `Option`, `Outcome` and `MessageOr`;
  - `Text` holds the JavaScript string operations used: `trim` over ECMAScript white space,
    `toLowerCase`, `includes`, `endsWith`, `split` and `replace`.
- **Pure code** becomes functions and lemmas. Examples are the countdown updater, the
  `reduce` folds, `getPriceDisplay`, `parseJwt` and the validators.
- **Screens and services that update state** become classes whose methods state the whole new
  state. Examples are `Checkout`, `TicketSelector`, `TicketScreen`, the two form screens,
  `AuthSession` and `ChatStore`.
- **Awaited requests become inputs.** The outcome of each request (`Outcome`, `Response`,
  `LoginResponse`, `RegisterOutcome`, or a failure flag for the store) is a parameter of the
  handler. The out-parameter `busy` is the screen's loading flag while the request is awaited.
- **Foreign code becomes parameters.** The JSON and base64 decoding of a JWT payload is a
  function parameter. Yup's e-mail verdict is a boolean. The clock is an integer parameter.

### Behaviour of the code worth knowing

- **Plus presses have no ceiling.** The code never clamps a ticket count at the remaining
  inventory, so a plus press always adds one.
- **No discount is computed on the client.** The code posts the typed code with the order and
  leaves the price to the server.
- **Creating an order always needs a payment page.** A response without `checkoutUrl` is an
  error ("No checkout URL provided"), never an immediate success.
- **The stock check reads only the first line's type.** It counts the requested tickets over
  all lines, but compares them only with the stock left of the first line's type.
- **`loading` stays set after a payment page is received.** A success redirect does not clear
  it. Only a cancel redirect or the back arrow does, so the payment button stays disabled after
  a completed payment.

### Calls that fail in the code as given

`services/auth.service.js` exports only `login`. The code as given calls functions it does not
export, and each of these calls throws a TypeError:

- the authentication context calls `getToken` and `logout` on it;
- the registration screen calls `sendVerificationCode`, `verifyCode` and `register` on it.

`screens/ForgotPasswordScreen.tsx` imports the named exports `sendCode` and `resetPassword` from
`services/authService.js`, which has only a default export (an object holding
`sendVerificationCode`, `verifyCode`, `register`, `login`, `getToken`, `logout` and
`googleLogin`). Both names are undefined, so both handlers throw a TypeError inside their `try`,
and every send-code and reset attempt ends in the catch block's alert.

The model takes the outcome of each of these calls as an input. For the authentication context
and the first two registration steps, the source's real behaviour is one particular choice of
those inputs: the stored-token read fails (`ReadFailed`), and every rejection is a TypeError
with a message. The registration request is the exception. Its catch block stores the thrown
TypeError object itself as the message, and no `RegisterOutcome` stands for that (see
"## Left out"). `HandleSendCode` and `HandleResetPassword` model the intended wiring,
in which the requests are made; the shipped screen is the case where every outcome is a
rejection.

## Model

| member | source | states |
|---|---|---|
| Wrappers.MessageOr | screens/RegisterScreen.tsx:60 | the error's message when it is non-empty, otherwise the fallback |
| Text.TrimProperties | services/searchService.js:49-52 | a trimmed text is empty exactly when the text is all white space; its ends are not white space; it occurs in the original |
| Text.TrimIdempotent | services/searchService.js:49-52 | trimming twice is trimming once |
| Text.ToLower | services/userService.js:35 | same length, each character lowered |
| Text.ToLowerIdempotent | services/userService.js:35 | lowering twice is lowering once |
| Text.ToLowerNeverUpper | services/authContext.js:21-23 | no lowered string equals a string holding an upper-case letter |
| Text.SplitJoin | services/authContext.js:102 | joining the pieces of `split` with the separator gives the text back |
| Payment.Tick | screens/PaymentScreen.tsx:55-65 | expiry fires exactly at 0:00 and keeps the clock; otherwise one second less; seconds stay below 60 |
| Payment.CountdownRunsOut | screens/PaymentScreen.tsx:53-66 | from any clock, exactly as many ticks as seconds left reach 0:00 with no expiry, and the next tick expires |
| Payment.AfterWellFormed | screens/PaymentScreen.tsx:55-60 | the clock stays well formed through any number of ticks |
| Payment.ReservationLasts900Ticks | screens/PaymentScreen.tsx:47-66 | from 15:00, 900 ticks without expiry; the 901st expires |
| Payment.UnitPrice | screens/PaymentScreen.tsx:74-75 | definition: the price of the ticket id's type, 0 for an unknown id or an unpriced type |
| Payment.LinesTotal | screens/PaymentScreen.tsx:73-77 | definition: the sum over the lines of quantity times the price of the line's type, 0 for an unknown id or an unpriced type |
| Payment.TotalAmount | screens/PaymentScreen.tsx:72-78 | definition: the lines' total when the tickets, prices and types are all present, else 0 |
| Payment.LinesTotalAppend | screens/PaymentScreen.tsx:72-78 | the total of concatenated lines is the sum of the totals |
| Payment.UnpricedLineAddsNothing | screens/PaymentScreen.tsx:74-76 | a line of an unknown or unpriced type adds nothing, wherever it stands |
| Payment.LinesTotalZero | screens/PaymentScreen.tsx:72-78 | the total is 0 exactly when every line is empty or unpriced |
| Payment.TwoVipTickets | screens/PaymentScreen.tsx:72-78 | example: 2 VIP at 2,000,000 and 0 Standard cost 4,000,000 |
| Payment.Requested | screens/PaymentScreen.tsx:100 | definition: the sum of the lines' quantities |
| Payment.Available | screens/PaymentScreen.tsx:98-99 | definition: the first type's total stock less its sold count (0 when absent); none where JavaScript gets NaN |
| Payment.RefusalAlert | screens/PaymentScreen.tsx:82-104 | definition: the alert each refusal raises; an aborted handler raises none |
| Payment.CheckOrder | screens/PaymentScreen.tsx:82-104 | an order passes only with an event id, a non-empty ticket list and a sale still open; a stock refusal means more were requested than remain |
| Payment.InventoryCheck | screens/PaymentScreen.tsx:97-104 | on complete data, the order is refused exactly when the requested total exceeds the first line's type's stock |
| Payment.OnlyFirstLineTypeIsChecked | screens/PaymentScreen.tsx:98-101 | orders with the same first ticket and count get the same verdict, whatever their other lines |
| Payment.SecondTypeStockIgnored | screens/PaymentScreen.tsx:98-101 | a second line of a sold-out type passes when the first type has stock |
| Payment.RequestedAppend | screens/PaymentScreen.tsx:100 | the requested count of concatenated lines is the sum of the counts |
| Payment.BuildBody | screens/PaymentScreen.tsx:115-121 | the body carries the event id, the tickets and both sentinel URLs; the discount code travels exactly when one was typed |
| Payment.PaymentPage | screens/PaymentScreen.tsx:135-137 | definition: the response's non-empty `checkoutUrl`, if it is a success |
| Payment.FailureMessage | screens/PaymentScreen.tsx:131-140 | definition: the server's non-empty message or "Không thể tạo đơn hàng" for an error status; "No checkout URL provided" for a success without a page |
| Payment.FailureAlert | screens/PaymentScreen.tsx:143-147 | the regular-sale alert exactly when the message mentions it; otherwise the order-failed alert with the message |
| Payment.ClassifyUrl | screens/PaymentScreen.tsx:155-163 | paid exactly when the URL contains the return URL; cancelled exactly when it contains the cancel URL and not the return URL |
| Payment.ReturnWithQueryIsPaid | screens/PaymentScreen.tsx:155 | the return URL followed by any query string counts as paid |
| Payment.GatewayPageIsIgnored | screens/PaymentScreen.tsx:153-164 | example: a gateway page URL is neither paid nor cancelled |
| Payment.Checkout.constructor | screens/PaymentScreen.tsx:47-50 | 15:00 on the clock, not loading, no payment page |
| Payment.Checkout.OnTimerTick | screens/PaymentScreen.tsx:54-66 | the clock becomes the tick's result; the time-up alert exactly when the clock was at 0:00 |
| Payment.Checkout.HandlePayment | screens/PaymentScreen.tsx:81-150 | a refused order changes nothing and raises its alert; a missing token clears loading and asks for login; otherwise the built body is sent and the payment page is opened with loading still set, or the failure alert is raised and loading cleared |
| Payment.Checkout.OnPayPress | screens/PaymentScreen.tsx:309-311 | while loading a press does nothing, so at most one order is in flight; otherwise the press has exactly the payment handler's effects: the refusal alert, the login alert, or the posted body with the payment page opened or the failure alert |
| Payment.Checkout.HandleWebViewNavigation | screens/PaymentScreen.tsx:153-164 | paid: page closed, completion alert, go to tickets, loading kept; cancelled: page closed, loading cleared; anything else changes nothing |
| Payment.Checkout.CloseWebView | screens/PaymentScreen.tsx:184-187 | the back arrow closes the page and clears loading |
| SelectTicket.Bump | screens/SelectTicketPage.tsx:20 | the new count is never negative: the sum when it is positive, else 0 |
| SelectTicket.Sum | screens/SelectTicketPage.tsx:25 | definition: the sum of the rows' counts, 0 for no rows |
| SelectTicket.SumPositiveIffSomeRow | screens/SelectTicketPage.tsx:25 | over non-negative counts, the total is positive exactly when some row is |
| SelectTicket.SumUpdate | screens/SelectTicketPage.tsx:19-25 | changing one row changes the total by that row's difference |
| SelectTicket.PlusAddsOne | screens/SelectTicketPage.tsx:68 | a plus press always adds one: there is no ceiling |
| SelectTicket.MinusAtZeroStaysZero | screens/SelectTicketPage.tsx:57-62 | example: a minus press at zero keeps the row at zero |
| SelectTicket.TicketSelector.constructor | screens/SelectTicketPage.tsx:15 | two rows, both zero |
| SelectTicket.TicketSelector.TotalQuantity | screens/SelectTicketPage.tsx:25 | definition: `totalQuantity`, the sum of the current rows |
| SelectTicket.TicketSelector.ContinueEnabled | screens/SelectTicketPage.tsx:126-128 | definition: the continue button is enabled when the total is not 0 |
| SelectTicket.TicketSelector.MinusEnabled | screens/SelectTicketPage.tsx:57-62 | definition: a row's minus control is enabled when its count is not 0 |
| SelectTicket.TicketSelector.ContinueEnabledIffSomeRow | screens/SelectTicketPage.tsx:126-128 | the continue button is enabled exactly when some row has a ticket |
| SelectTicket.TicketSelector.UpdateQuantity | screens/SelectTicketPage.tsx:17-23 | only the chosen row changes, to its clamped new count; counts stay non-negative; the total moves by the difference |
| SelectTicket.TicketSelector.OnMinusPress | screens/SelectTicketPage.tsx:57-62 | a minus press on a row at zero (its control disabled) changes nothing; otherwise that row loses exactly one ticket and no other row changes |
| PriceBadge.SoldEntries | screens/DetailEventScreen.tsx:57 | exactly the entries of types with sales |
| PriceBadge.IsSold | screens/DetailEventScreen.tsx:57 | definition: the sold-count object exists and holds a positive count for the key |
| PriceBadge.MinPrice | screens/DetailEventScreen.tsx:58 | one of the listed prices, and none is lower |
| PriceBadge.GetPriceDisplay | screens/DetailEventScreen.tsx:51-72 | definition: free with no original price when there are no prices; else the cheapest sold price, with the overall cheapest as original price when lower, if some type has sales; else the overall cheapest |
| PriceBadge.MinOfSubsetNotBelow | screens/DetailEventScreen.tsx:58-63 | the cheapest of some entries is never below the cheapest of all |
| PriceBadge.OriginalPriceNeverShown | screens/DetailEventScreen.tsx:66 | the struck-through original price is never shown |
| PriceBadge.FreeIffNoPrices | screens/DetailEventScreen.tsx:52-54 | the badge says free exactly when there are no prices |
| PriceBadge.DisplayIsListedPrice | screens/DetailEventScreen.tsx:56-71 | otherwise the badge is a listed price, never below the cheapest |
| PriceBadge.DisplayWithSales | screens/DetailEventScreen.tsx:60-67 | with sales: the cheapest price among the sold types |
| PriceBadge.DisplayWithoutSales | screens/DetailEventScreen.tsx:68-71 | without sales: the cheapest price of all, no original price |
| TicketTabs.ReplayStaysValid | screens/TicketScreen.tsx:16-46 | any sequence of presses on rendered buttons keeps both tabs among the rendered ones |
| TicketTabs.PressMain | screens/TicketScreen.tsx:23-26 | definition: the pressed main tab, with the sub tab back at upcoming |
| TicketTabs.PressSub | screens/TicketScreen.tsx:46 | definition: the pressed sub tab, with the main tab kept |
| TicketTabs.MainPressForgetsSubTab | screens/TicketScreen.tsx:23-26 | a main press sets the main tab and resets the sub tab, whatever the state before |
| TicketTabs.SubPressKeepsMainTab | screens/TicketScreen.tsx:46 | a sub press changes only the sub tab |
| TicketTabs.PressIdempotent | screens/TicketScreen.tsx:23-26 | pressing the same tab twice is pressing it once |
| TicketTabs.TicketScreen.constructor | screens/TicketScreen.tsx:5-6 | starts on all / upcoming |
| TicketTabs.TicketScreen.OnMainTabPress | screens/TicketScreen.tsx:23-26 | the new state is the main press's result and stays valid |
| TicketTabs.TicketScreen.OnSubTabPress | screens/TicketScreen.tsx:46 | the new state is the sub press's result and stays valid |
| ForgotPassword.EmailError | screens/ForgotPasswordScreen.tsx:100 | no error exactly when the field is non-empty and matches the unanchored e-mail pattern |
| ForgotPassword.EmailMatches | screens/ForgotPasswordScreen.tsx:100 | definition: somewhere in the text a run of non-space characters holds one before an '@', at least one between it and a later '.', and one after |
| ForgotPassword.EmailMatchesInContext | screens/ForgotPasswordScreen.tsx:100 | the pattern is unanchored: text around a match does not matter |
| ForgotPassword.EmailExamples | screens/ForgotPasswordScreen.tsx:100 | "a@b.c" matches; "abc.de" and "a@bc" do not |
| ForgotPassword.FirstLine | screens/ForgotPasswordScreen.tsx:153 | the text before the first line terminator, which `.*` can scan |
| ForgotPassword.StrengthPatternMatches | screens/ForgotPasswordScreen.tsx:153 | definition: an upper-case letter, a digit and one of `@$!%*?&` all occur before the first line terminator |
| ForgotPassword.NewPasswordError | screens/ForgotPasswordScreen.tsx:150-155 | no error exactly when at least 10 characters and the pattern matches; too short exactly when 1 to 9 characters |
| ForgotPassword.SingleLinePassword | screens/ForgotPasswordScreen.tsx:150-155 | on one line: at least 10 characters with an upper-case letter, a digit and a special character |
| ForgotPassword.FirstLineStopsAtBreak | screens/ForgotPasswordScreen.tsx:153 | the first line of a text is everything before its first line terminator |
| ForgotPassword.SecondLineDoesNotCount | screens/ForgotPasswordScreen.tsx:153 | example: a password whose strength characters all follow a line break is refused |
| ForgotPassword.ForgotPasswordScreen.constructor | screens/ForgotPasswordScreen.tsx:10-12 | step 1, not loading, no address recorded |
| ForgotPassword.ForgotPasswordScreen.EditForm | screens/ForgotPasswordScreen.tsx:21 | the form fields take the typed values |
| ForgotPassword.ForgotPasswordScreen.ResetToStep1 | screens/ForgotPasswordScreen.tsx:38-43 | back to step 1 with the step 2 fields cleared |
| ForgotPassword.ForgotPasswordScreen.Step2FieldsValid | screens/ForgotPasswordScreen.tsx:128-180 | definition: a non-empty code, a new password breaking no rule, and a non-empty confirmation |
| ForgotPassword.ForgotPasswordScreen.HandleSendCode | screens/ForgotPasswordScreen.tsx:45-56 | an invalid address changes nothing; otherwise the code is requested while loading, success records the address and moves to step 2, failure alerts; loading is cleared |
| ForgotPassword.ForgotPasswordScreen.HandleResetPassword | screens/ForgotPasswordScreen.tsx:58-78 | invalid fields change nothing; differing passwords alert before any request; otherwise the reset is sent with the recorded address, success moves to step 3, failure alerts; loading is cleared |
| Register.NameExamples | screens/RegisterScreen.tsx:29 | examples: spaces, hyphens and accented letters are allowed in a name, a dot is not |
| Register.EmailValid | screens/RegisterScreen.tsx:27 | definition: non-empty and accepted by Yup's e-mail test |
| Register.CodeValid | screens/RegisterScreen.tsx:28 | definition: non-empty and all decimal digits |
| Register.FullNameValid | screens/RegisterScreen.tsx:29 | definition: non-empty and free of the listed special characters |
| Register.PasswordValid | screens/RegisterScreen.tsx:30 | definition: at least 10 characters, nothing else |
| Register.ConfirmValid | screens/RegisterScreen.tsx:31-33 | definition: non-empty and equal to the password |
| Register.WeakPasswordAccepted | screens/RegisterScreen.tsx:30-33 | ten lower-case letters pass: only the length is enforced |
| Register.RegisterScreen.constructor | screens/RegisterScreen.tsx:20-24 | step 1, not loading, no message |
| Register.RegisterScreen.EditForm | screens/RegisterScreen.tsx:36-45 | the form fields take the typed values |
| Register.RegisterScreen.AllFieldsValid | screens/RegisterScreen.tsx:26-34 | definition: every rule of the schema holds for the form's values, as `handleSubmit(onRegister)` requires |
| Register.RegisterScreen.OnSendVerification | screens/RegisterScreen.tsx:47-64 | an invalid address changes nothing; otherwise the code is requested while loading, success shows the sent message and moves to step 2, failure shows the error's message or the default; loading is cleared |
| Register.RegisterScreen.OnVerifyCode | screens/RegisterScreen.tsx:66-82 | an invalid code changes nothing; success moves to step 3; failure shows the error's message or the default; loading is cleared |
| Register.RegisterScreen.OnRegister | screens/RegisterScreen.tsx:84-107 | only a fully valid form is sent; success shows the success message and goes to login; a list of errors is shown joined by newlines, any other error as it is; loading is cleared |
| Search.CleanFilter | services/searchService.js:49-52 | a filter is sent exactly when it has a non-space character, and then trimmed; the result is the filter's value |
| Search.Kept | services/searchService.js:49-52 | definition: `s && s.trim()` is truthy: present with a non-empty trimmed text |
| Search.ParsedOr | services/searchService.js:65-66 | definition: `parseInt(x) || fallback`: a parsed non-zero integer, else the fallback |
| Search.FilterValue | services/searchService.js:49-52 | definition: the trimmed text of a filter that is not blank, else none |
| Search.TimeValue | services/searchService.js:54-63 | definition: a truthy time converted, a date to its ISO image and a string as given, else none |
| Search.PageValue | services/searchService.js:65 | definition: the parsed page when at least 1, else 1 |
| Search.SizeValue | services/searchService.js:66 | definition: a parsed size clamped to 1..100, 10 when absent, NaN or 0 |
| Search.Normalized | services/searchService.js:36-66 | definition: the query of the cleaned values, field by field, of the arguments or of `{}` |
| Search.CleanTime | services/searchService.js:54-63 | a time is sent exactly when truthy: a date as its ISO text, a string as it is |
| Search.CleanPage | services/searchService.js:65 | the page is the parsed page when at least 1, else 1 |
| Search.CleanSize | services/searchService.js:66 | the size is clamped to 1..100, and an absent, unparsable or zero size gives 10 |
| Search.NormalizeParams | services/searchService.js:36-66 | the query is the field-by-field value of the arguments: filters sent trimmed exactly when not blank, truthy times converted, the page and size clamped with their defaults; no arguments give page 1 and size 10 only |
| Search.FilterValueStable | services/searchService.js:49-52 | a filter already cleaned is sent again unchanged |
| Search.NormalizedIdempotent | services/searchService.js:36-66 | the query sent, passed back as arguments, is sent unchanged |
| Search.ReadResponse | services/searchService.js:72-80 | the raw body is kept; a missing data object gives [] / 1 / 1 / 10; otherwise each field is the body's value when present and non-zero, else its default ([] / 1 / 1 / 10) |
| Search.NumberOr | services/searchService.js:76-78 | definition: `x || fallback` on a number: a present non-zero value, else the fallback |
| Search.ZeroFieldsReadAsMissing | services/searchService.js:76-78 | a page, page count or page size of 0 reads as a missing one |
| Search.EmptyDataLikeNoData | services/searchService.js:72-78 | an empty data object reads like no data object |
| Search.ErrorMessage | services/searchService.js:82-93 | timeout, then network failure, then 404, then 500, then the server's non-empty message, then the generic text |
| Search.ClassifyError | services/searchService.js:81-98 | the thrown error carries the chain's message, the original error and its status |
| Search.GetRecommendedEvents | services/searchService.js:34-100 | the query sent is the cleaned one; a response is read with defaults; a failure becomes the error whose message the chain picks |
| Session.RemapBase64UrlAlphabet | services/authContext.js:102 | the remapped payload keeps its length, holds no '-' or '_', and changes only those characters |
| Session.RemapBase64Url | services/authContext.js:102 | definition: '-' replaced by '+', then '_' by '/' |
| Session.PayloadOf | services/authContext.js:102 | definition: the second dot-separated segment, remapped |
| Session.Expired | services/authContext.js:110 | definition: a non-zero expiry in seconds whose milliseconds lie before now |
| Session.ParseJwt | services/authContext.js:100-117 | a result only for a token with a second segment whose payload decodes and has not expired, and then it is that payload |
| Session.ValidEarlier | services/authContext.js:110 | a token valid now is valid at every earlier instant |
| Session.NoExpiryNeverExpires | services/authContext.js:110 | a payload without expiry, or with expiry 0, is never rejected for time |
| Session.RolelessPayloadRefused | services/authContext.js:21-24 | a truthy payload with no fields parses and fails both role tests, so login and the start-up restore log it out |
| Session.RoleMatchesAsWritten | services/authContext.js:21-23 | definition: the lower-cased role equals 'ROLE_customer' itself |
| Session.RoleAllowed | services/authContext.js:60-61 | definition: the lower-cased role equals the lower-cased 'ROLE_customer' |
| Session.LoweredRole | services/authContext.js:21 | definition: `decoded?.role?.toLowerCase()`: the lowered role, or none without a role |
| Session.StoredRoleNeverMatches | services/authContext.js:21-23 | the start-up role test as written never passes |
| Session.AllowedRoleLowered | services/authContext.js:61 | the allowed role lower-cases to "role_customer" |
| Session.RoleAllowedIff | services/authContext.js:60-61 | a role is accepted exactly when it lower-cases to "role_customer" |
| Session.RoleCaseIgnored | services/authContext.js:60-61 | a role and its lower-cased form are accepted alike |
| Session.UserEmail | services/authContext.js:31 | the e-mail claim when non-empty, else the subject |
| Session.UserOf | services/authContext.js:29-33 | definition: the token, the e-mail (or subject) and the lower-cased role |
| Session.AuthSession.constructor | services/authContext.js:9-10 | no user, loading |
| Session.AuthSession.LoadUser | services/authContext.js:13-41 | as written: every non-empty stored token ends with no user, and exactly the tokens that parse lead to a logout request; no token leaves the user; a failed read clears it; loading ends cleared |
| Session.AuthSession.LoadUserCorrected | services/authContext.js:13-41 | with login's role test: a valid customer token becomes the user; any other stored token clears the user, after a logout request when only the role is wrong; no token leaves the user; loading ends cleared |
| Session.AuthSession.Login | services/authContext.js:46-75 | signs in exactly when a non-empty token parses with the customer role; every other path leaves the user and reports its message; logout is requested exactly when the role is wrong |
| Session.AuthSession.Logout | services/authContext.js:77-85 | the user is cleared only when the request resolves; loading is set while awaited and then cleared |
| ChatLog.Decrypt | services/chatbotService.js:23-24 | the sealed text exactly under the sealing key, else nothing |
| ChatLog.SafeParse | services/chatbotService.js:10-16 | the parsed list, or the fallback when parsing fails |
| ChatLog.Readable | services/chatbotService.js:21-30 | definition: the entry is absent, empty, or decrypts under the key |
| ChatLog.Load | services/chatbotService.js:18-32 | definition: [] for an absent or empty entry or one that does not decrypt, else the parsed list with [] as fallback |
| ChatLog.SealLoadRoundTrip | services/chatbotService.js:18-45 | a list saved and loaded under the same key comes back unchanged |
| ChatLog.OtherKeyLoadsNothing | services/chatbotService.js:23-30 | under another key a saved list loads as [] |
| ChatLog.ChatStore.constructor | services/chatbotService.js:7-8 | the initial key, the given store entry |
| ChatLog.ChatStore.GetMessages | services/chatbotService.js:18-38 | returns the stored list or []; an unreadable entry or a failed read removes the entry; afterwards the store holds exactly the list returned |
| ChatLog.ChatStore.SaveMessages | services/chatbotService.js:40-50 | true exactly when written; then the store holds the list sealed under the key and loads back as it |
| ChatLog.ChatStore.ClearMessages | services/chatbotService.js:52-58 | the entry is removed |
| ChatLog.ChatStore.ChangeEncryptionKey | services/chatbotService.js:60-70 | always reports success; the key becomes the new one; the list is kept when the read succeeds and either the write succeeds or the key is unchanged, and lost when the write fails under a different key |
| ChatLog.ChatStore.AddMessage | services/chatbotService.js:82-104 | the returned list is the old one plus the new message; the store holds it when the write succeeds and the old list otherwise |
| ChatLog.ChatStore.AddUserMessage | services/chatbotService.js:82-92 | old list plus a user message, returned; stored when the write succeeds, the old list kept otherwise |
| ChatLog.ChatStore.AddBotMessage | services/chatbotService.js:94-104 | old list plus a bot message, returned; stored when the write succeeds, the old list kept otherwise |
| Avatar.UploadAvatar | services/userService.js:34-47 | sent exactly when the extension is allowed, always as "avatar.jpg" of type image/jpeg with the URI unchanged; otherwise the error text |
| Avatar.ExtensionAllowed | services/userService.js:35-37 | definition: the lower-cased URI ends in ".jpg", ".jpeg" or ".png" |
| Avatar.ToLowerAppend | services/userService.js:35 | lower-casing distributes over concatenation |
| Avatar.ExtensionCaseInsensitive | services/userService.js:35-37 | a URI and its lower-cased form are accepted alike |
| Avatar.OnlyEndingMatters | services/userService.js:37 | only the last five characters decide |
| Avatar.PngSentAsJpeg | services/userService.js:37-47 | a ".png" URI is accepted and still sent as a JPEG |
| Avatar.GifRefused | services/userService.js:37-40 | a ".gif" URI is refused with the error text |

## Left out

- Rendering, styles, navigation wiring and the presentational screens. They hold no logic.
- The HTTP requests. Each outcome is an input, and the API URLs and headers are not modelled.
- `testConnection`, `testSearch` and `chat`. These are network calls only.
- The checkout model assumes the event object is present. Without it the screen shows a
  placeholder instead of the payment button.
- The interval timer and unmount clean-up. One call to `OnTimerTick` is one firing of the
  interval.
- React's state batching and the interleaving of awaits. Each handler runs to completion, with
  the awaited outcome given up front.
- Logging through `console`.
- Ticket prices are whole numbers (`nat`). `Number` on a non-numeric price, which gives NaN, is
  not modelled.
- `Date` is modelled as an integer instant, and `toISOString` as an injective image of it.
  Invalid dates are not modelled. Such a date is truthy and an `instanceof Date`, so its
  `toISOString()` throws a RangeError: no request is sent and the search fails with the
  generic message.
- `Object.keys` order is the order of the price entries.
- Text.ToLower: lower-cases ASCII letters only. This is exact for the extension list and the
  role strings, but not for other Unicode letters.
- Lengths are counted in code points, not UTF-16 code units. This only matters for the
  10-character password minimum, and only with characters outside the Basic Multilingual Plane.
- Session.ParseJwt: the payload decoding (`atob`, the percent re-encoding,
  `decodeURIComponent`, `JSON.parse`) is a function parameter. A payload of `null` is "does
  not decode", as in the source: reading its `exp` throws inside the same `try`. A truthy
  payload that is not an object (a number, `true`, a non-empty string, an array) decodes to
  `NoClaims`, the claims with no field defined, which is how every reader of the payload
  treats it. A falsy payload (`false`, `0`, `""`) is folded into "does not decode".
- Session.AuthSession.Login: the logout request made for a falsy payload before the
  invalid-token error (`services/authContext.js:55-57`) is not modelled. The model gives the
  same error with no logout. For the start-up restore the fold is exact, because a falsy
  payload throws there with no logout.
- Session.AuthSession.LoadUser: which stored token is read, and whether the read fails, are
  inputs. `LoadUserCorrected` is the same effect with login's role test (see Findings); nothing
  in the source calls it.
- Register.EmailValid: Yup's e-mail test is a boolean input.
- Register.RegisterScreen.OnRegister: a rejection that is neither a string nor an array is not
  modelled. The shipped TypeError is such a rejection, and the catch block stores the Error
  object itself as the message. The contract models the intended wiring through
  `services/authService.js`, whose `register` rejects with the server's message or a default
  string.
- A non-string form value, and a TypeError from an unexpected shape (a non-string role, a
  message list that is not an array), are not modelled.
- ChatLog: the cipher is an ideal one. A text sealed under one key decrypts under that key only.
  A failure of the store's remove call is not modelled.
- SelectTicket.TicketSelector.UpdateQuantity: requires an existing row. The screen only ever
  passes row 0 or row 1.
- ForgotPassword.ForgotPasswordScreen.HandleSendCode: the alert carries the rejection's
  message, where the source shows `error.toString()`.
- ForgotPassword.ForgotPasswordScreen.HandleResetPassword: the alert carries the rejection's
  message, where the source shows `error.toString()`.
- Payment.Checkout.HandlePayment: a rejection of the token read (`AsyncStorage.getItem`) is not
  a response variant. The source then skips the order request, shows the order-failed alert
  with that error's message and clears loading.

## Findings

| source | as written | input that shows it | evidently intended | confidence | as-written member | corrected member |
|---|---|---|---|---|---|---|
| services/authContext.js:21-23 | the start-up restore compares the lower-cased role with `ALLOWED_ROLE` itself, 'ROLE_customer', which no lower-cased string can equal | a valid stored token with role "ROLE_customer": the restore logs out and clears the user | compare with `ALLOWED_ROLE.toLowerCase()`, as login does at line 61 | high; not executed | Session.AuthSession.LoadUser | Session.AuthSession.LoadUserCorrected |
