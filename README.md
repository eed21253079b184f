# ArtassWeb admin actions and login, modelled in Dafny

ArtassWeb is a portal for a tabletop role-playing community. Administrators manage characters
and accounts from two admin pages, and members log in through a small route handler. This project
models the logic behind those actions that can be checked:

- **The weekly payment ledger** (`payments.dfy`, `week.dfy`). This is the `pagos_log` table and
  the fallback the characters page runs when the database procedures `increment_pago` /
  `decrement_pago` are missing.
  - The accounting week of an instant is computed step by step as `weekWindow` does it, and
    proved equal to a closed form. The week is Saturday 00:00 to the next Saturday 00:00.
  - Increment adds one record for the character, unless the character already has five in the
    current week.
  - Decrement deletes, by id, the character's latest record in the current week.
  - The table is a class holding a sequence of records; the id counter stands in for the
    store's fresh ids.
- **Event points** (`eventpoints.dfy`). A class holding the `event_points` column, changed by
  a read-modify-write: plus one, or minus one floored at zero.
- **The admin gate and the character form** (`gate.dfy`, `characters.dfy`).
  - No session redirects to `/login`; a user who is not an administrator redirects to
    `/dashboard`.
  - Then come the required id and the owner, name, EXP and level checks.
  - Every action is a function from its inputs to an `Outcome`: a redirect, a thrown error, or
    the write the action would issue. Only a `Done` outcome carries a write, so "nothing is
    written before the checks pass" is part of each contract.
- **Account provisioning** (`users.dfy`).
  - `slugify`, and `randomId` as its `for` loop.
  - The synthetic address `<slug>-<6 ids>@users.artass.local` and the temporary password
    `xxxx-xxxx-xxxx`.
  - The checks of `createUser`, `updateUser` and `deleteUser`: a name and a numeric limit are
    required, an id is required, and an administrator cannot delete their own account.
- **Login** (`login.dfy`).
  - `isEmailLike`, proved equivalent to the regular expression `/.+@.+\..+/`.
  - The POST handler: 400 when a field is missing. An address-like identifier goes straight to
    the sign-in. Any other identifier is looked up as a profile name or Discord id, with 404 when
    nothing is found. A refused sign-in gives 401, anything thrown gives 500, and success
    redirects home.
- **JavaScript semantics the handlers rely on** (`js.dfy`). `String(form.get(k) || '')`, `trim`
  over the ECMAScript white-space and line-terminator set, ASCII `toLowerCase`, and JavaScript
  numbers: NaN, finite, and the two infinities.

The environment becomes parameters:

- The session user and the `is_admin` lookup.
- The conversion `Number(text)`.
- The replies of the procedure call and the store calls. Each store call is a boolean
  "returned an error".
- The clock `now`, and the store's own clock `insertedAt`, which stamps `created_at` on insert.
- The random draws.
- The profile, account and sign-in calls of the login route.

The comments in `weekWindow` name a Monday 00:00 (app/admin/characters/page.tsx:126) and a
Saturday 00:00 (:128). The code steps back to that Monday, forward five days, and one week back
when the instant is before that Saturday. So the window it returns always starts on a Saturday at
00:00 and lasts seven days (`Week.WeekWindow`, `Week.AccountingWeekStart`). This agrees with the
site's own text: the counter restarts every Saturday at 00:00 (app/page.tsx:41-42,
app/admin/characters/[id]/page.tsx:72). The fallback insert at :144 sends only `character_id`, so
the store stamps `created_at`; the model takes that stamp as its own parameter.

## Model

| member | source | states |
|---|---|---|
| Js.Trim | app/admin/characters/page.tsx:62-63 | the result is the slice of the input between a run of leading and a run of trailing trimmable characters (JS white space and line terminators); it is empty exactly when every character is trimmable, and otherwise starts and ends with a kept character |
| Js.TrimIdempotent | app/admin/characters/page.tsx:111 | trimming a trimmed field changes nothing, so a checked id is already trimmed |
| Js.LowerAscii | app/admin/users/page.tsx:40 | same length; each character is its ASCII lower-case form |
| AdminGate.Check | app/admin/characters/page.tsx:57-60 | Admit exactly when there is a user whose is_admin answer is true; no user goes to /login, anyone else to /dashboard |
| Week.WeekWindow | app/admin/characters/page.tsx:121-133 | the step-by-step window starts on a Saturday at 00:00, contains d, is exactly seven days long, and equals the closed form AccountingWeekStart(d) |
| Week.Weekday | app/admin/characters/page.tsx:123 | getDay: a number from 0 to 6, and 4 (Thursday) on 1970-01-01 |
| Week.Midnight | app/admin/characters/page.tsx:124 | setHours(0,0,0,0): a whole-day instant at or before t, less than a day before it |
| Week.AccountingWeekStart | app/admin/characters/page.tsx:125-131 | the closed-form window starts at a Saturday 00:00, is seven days long and contains the instant |
| Week.WindowUnique | app/admin/characters/page.tsx:121-133 | any Saturday 00:00 whose seven days contain t is t's window start: the window is unique |
| Week.InWindowIffSameWeek | app/admin/characters/page.tsx:136-141 | an instant lies in the window of now exactly when it has the same accounting week, in both directions |
| Week.SaturdayMidnightStartsWindow | app/admin/characters/page.tsx:129 | at exactly Saturday 00:00 the window starts at that instant (the comparison is strict) |
| Week.WindowStartByWeekday | app/admin/characters/page.tsx:125-129 | on Sunday to Friday the window starts Weekday+1 days before midnight, at the previous Saturday; on Saturday it starts at that day's midnight |
| Week.LastInstantBeforeSaturday | app/admin/characters/page.tsx:129-131 | one millisecond before a Saturday 00:00 belongs to the week that ends at it |
| Week.WindowMonotone | app/admin/characters/page.tsx:121-133 | a later instant never has an earlier week |
| Week.ShiftDays | app/admin/characters/page.tsx:126-128 | moving by whole days moves the day number by that many and the weekday by that many modulo 7 |
| Characters.ExpAccepted | app/admin/characters/page.tsx:69 | EXP passes exactly when it is a finite number in 0..74 (NaN and the infinities fail) |
| Characters.LevelAccepted | app/admin/characters/page.tsx:70 | level passes exactly when it is finite and at least 1, or +Infinity |
| Characters.CheckFields | app/admin/characters/page.tsx:68-70 | no failure exactly when owner and name are non-empty and EXP and level pass; an empty owner or name is reported first, then EXP, then level |
| Characters.AdminAndId | app/admin/characters/page.tsx:107-112 | a denied gate redirects; an admitted one fails with "ID requerido" on an empty trimmed id, and otherwise yields that non-empty trimmed id |
| Characters.CreateCharacter | app/admin/characters/page.tsx:54-76 | a denied gate redirects, and only then; an admitted caller whose form fails gets the first failing check of 68-70; otherwise the inserted row is the trimmed, defaulted form and is well formed |
| Characters.UpdateCharacter | app/admin/characters/page.tsx:78-102 | a denied gate redirects; an empty trimmed id fails with "ID requerido" before the fields are checked; then the first failing field check is reported; the update happens exactly when all pass, for that id with the read, well-formed columns |
| Characters.DeleteCharacter | app/admin/characters/page.tsx:256-271 | no user redirects to /login and a non-admin to /dashboard; an admitted caller with an empty trimmed id fails with "ID requerido"; otherwise the delete is for that trimmed id |
| Payments.CountInWindow | app/admin/characters/page.tsx:136-141 | the exact count is at most the table size, and is zero exactly when no record of the character lies in [start, end) |
| Payments.LatestInWindow | app/admin/characters/page.tsx:184-191 | a found position holds a record of the character in the window; nothing is found exactly when the count is zero |
| Payments.LatestIsLatest | app/admin/characters/page.tsx:190-191 | no record of the character in the window is later than the one found (created_at descending, limit 1) |
| Payments.DeleteLatest | app/admin/characters/page.tsx:193-197 | the table after a successful fallback decrement: at most one record goes, nothing is added, and the table is unchanged exactly when the character has no record in the window |
| Payments.RemoveById | app/admin/characters/page.tsx:195 | no record with the deleted id remains and the table does not grow |
| Payments.RemoveUniqueId | app/admin/characters/page.tsx:195 | when ids are unique, deleting by the id at position k removes exactly that record and keeps the order of the others |
| Payments.RemoveAbsentId | app/admin/characters/page.tsx:195 | deleting an id nobody has leaves the table unchanged |
| Payments.RemoveAtKeepsIds | app/admin/characters/page.tsx:195 | removing one record keeps the other ids unique and below the id counter |
| Payments.CountAppend | app/admin/characters/page.tsx:144 | appending a record adds one to a count exactly when the record is in that count's window and of its character |
| Payments.CountConcat | app/admin/characters/page.tsx:136-141 | the count over two concatenated tables is the sum of their counts |
| Payments.CountRemoveAt | app/admin/characters/page.tsx:194-196 | removing the record at k lowers a count by one exactly when that record is in the count's window |
| Payments.AppendWeeklyCount | app/admin/characters/page.tsx:144-145 | an insert stamped in the week of now raises that week's count for the character by exactly one; a stamp in another week leaves it unchanged |
| Payments.DecrementCount | app/admin/characters/page.tsx:184-197 | after the decrement the character's count in the window is max(0, count - 1) |
| Payments.DecrementLeavesOthers | app/admin/characters/page.tsx:184-197 | a decrement for one character leaves every other character's count, in every window, unchanged |
| Payments.DecrementUndoesIncrement | app/admin/characters/page.tsx:144-196 | when the appended record is the latest in its window, a decrement removes exactly it and restores the table |
| Payments.IncrementThenDecrementCount | app/admin/characters/page.tsx:144-196 | an increment stamped in the window followed by a decrement leaves the count as it was |
| Payments.PaymentLog.FallbackIncrement | app/admin/characters/page.tsx:134-145 | a count error or a count of five or more throws with the table unchanged; otherwise, unless the insert fails, exactly one record with a fresh id is appended and nothing else changes |
| Payments.PaymentLog.DeleteById | app/admin/characters/page.tsx:195-196 | deleting by the id of the latest record removes exactly that record, keeping ids unique |
| Payments.PaymentLog.DeleteLatestInWindow | app/admin/characters/page.tsx:193-197 | with no record in the window nothing happens and nothing fails; otherwise a failed delete leaves the table, and a successful one removes the latest record |
| Payments.PaymentLog.FallbackDecrement | app/admin/characters/page.tsx:182-197 | a select error throws with the table unchanged; otherwise the table becomes the one with the latest in-window record of the character removed, or stays as it was when there is none |
| Payments.PaymentLog.IncrementPayment | app/admin/characters/page.tsx:104-151 | the gate and id come first; the fallback runs only on error code PGRST202; any other error is rethrown with the table untouched; in the fallback a failed count or a failed insert is reported as such, the weekly cap gives WeeklyLimitReached, and the next id moves on exactly when a record is inserted; after a successful call only the id invariant is promised |
| Payments.PaymentLog.DecrementPayment | app/admin/characters/page.tsx:153-203 | the same selection for decrement: only PGRST202 runs the fallback, which removes the latest in-window record, reports a failed select or a failed delete as such and then leaves the table; any other error leaves the table |
| EventPoints.Incremented | app/admin/characters/page.tsx:221 | the next value is larger, and the floored decrement undoes it from any non-negative count |
| EventPoints.FlooredDecrement | app/admin/characters/page.tsx:246 | never negative; one less for a positive count, and 0 from 0 or below |
| EventPoints.WritePoints | app/admin/characters/page.tsx:222-225 | only an existing row changes, to the new value; the key set and every other row stay the same |
| EventPoints.WriteKeepsNonNegative | app/admin/characters/page.tsx:245-250 | writing a non-negative value keeps every stored count non-negative |
| EventPoints.PointsRoundTrip | app/admin/characters/page.tsx:246 | incrementing after decrementing a positive count gives it back; a count of 0 or below decrements to 0 |
| EventPoints.CharacterPoints.ReadModifyWrite | app/admin/characters/page.tsx:214-226 | a select or update error leaves the table; otherwise the row becomes the value read (0 for a missing row or a NULL column) plus one, or the floored decrement of it |
| EventPoints.CharacterPoints.IncrementEventPoints | app/admin/characters/page.tsx:205-228 | after the gate and id checks, the row ends at the value read plus one, with missing read as 0; non-negative counts stay non-negative |
| EventPoints.CharacterPoints.DecrementEventPoints | app/admin/characters/page.tsx:230-253 | after the gate and id checks, the row ends at max(0, value read - 1) and is never negative |
| Users.CollapseRuns | app/admin/users/page.tsx:50 | the result uses only [a-z0-9-] and never holds two dashes in a row |
| Users.CollapseAppend | app/admin/users/page.tsx:50 | after a letter or digit no run is open: collapsing u + t gives the collapse of u followed by the collapse of t on its own |
| Users.CollapseSplit | app/admin/users/page.tsx:50 | a run of non-[a-z0-9] characters after a letter or digit becomes exactly one dash: collapsing u + x + w gives the collapse of u, "-", then the collapse of w |
| Users.CollapseRunOfOthers | app/admin/users/page.tsx:50 | a leading run of non-[a-z0-9] characters becomes one dash, or nothing when it continues a run already replaced |
| Users.StripEdgeDashes | app/admin/users/page.tsx:50 | the result is the input with at most one leading and at most one trailing character removed, each of them a dash; on a collapsed string the result no longer starts or ends with a dash |
| Users.Slugify | app/admin/users/page.tsx:50 | every result is a slug: non-empty, only [a-z0-9-], no dash at either end and no double dash |
| Users.SlugifyKeepsLettersAndDigits | app/admin/users/page.tsx:50 | the slug holds exactly the lower-cased name's letters and digits in order; a name without any gives "user" |
| Users.CollapseKeepsSlugChars | app/admin/users/page.tsx:50 | collapsing runs keeps every letter and digit in order |
| Users.StripKeepsSlugChars | app/admin/users/page.tsx:50 | stripping edge dashes keeps every letter and digit |
| Users.OnlyDashes | app/admin/users/page.tsx:50 | a collapsed string without letters or digits strips to "", which is when "user" is used |
| Users.CollapseFixesSlug | app/admin/users/page.tsx:50 | a slug passes through the run collapse unchanged |
| Users.LowerFixesSlug | app/admin/users/page.tsx:50 | a slug passes through toLowerCase unchanged |
| Users.SlugifyIdempotent | app/admin/users/page.tsx:50 | slugifying a slug gives the same slug |
| Users.Pick | app/admin/users/page.tsx:55 | one character per draw: character i is the alphabet entry at draw i |
| Users.RandomId | app/admin/users/page.tsx:52-57 | the loop's string is exactly the draws' characters: length n, every character from the 31-character alphabet |
| Users.AlphabetHasNoSeparators | app/admin/users/page.tsx:53 | no id character is a dash, an at sign or a dot, and each is a slug character |
| Users.TempPassword | app/admin/users/page.tsx:59 | length 14; a character is a dash exactly at positions 4 and 9; every other one is from the alphabet |
| Users.SyntheticEmail | app/admin/users/page.tsx:58 | the address starts with exactly Slugify of the folded name, then a dash, the random part and "@users.artass.local", in that order, the length being the sum of the four |
| Users.SyntheticEmailShape | app/admin/users/page.tsx:58 | the synthetic address is a slug, a dash, six alphabet characters and "@users.artass.local", and its only "@" is the domain's |
| Users.FinalEmail | app/admin/users/page.tsx:58 | a non-empty address field is used as given; otherwise the address is the synthetic one from six draws |
| Users.EmailField | app/admin/users/page.tsx:40 | the trimmed, lower-cased address field: as long as the trimmed field, empty exactly when the field is blank, and without upper-case ASCII letters |
| Users.NewTempPassword | app/admin/users/page.tsx:59 | the three randomId(4) calls joined by dashes give TempPassword of the twelve draws |
| Users.CreateUser | app/admin/users/page.tsx:32-60 | after the gate, an empty trimmed name or a NaN limit fails with nothing created; otherwise the account carries the trimmed, defaulted fields, the given address or the synthetic one built from the folded name, and the temporary password |
| Users.UpdateUser | app/admin/users/page.tsx:89-124 | after the gate, the update happens exactly when the untrimmed id is non-empty; the address and password change only when given; the name and limit are not checked |
| Users.DeleteUser | app/admin/users/page.tsx:126-148 | a denied gate redirects; an admitted caller with an empty id fails with "ID requerido", and with the caller's own id with the self-deletion message; otherwise the deletion is for that id |
| Login.EmailLikeIff | app/auth/login/route.ts:5-7 | isEmailLike holds exactly when /.+@.+\..+/ matches somewhere in the string, in both directions |
| Login.IsEmailLike | app/auth/login/route.ts:5-7 | an address-like string has at least five characters, an "@" and a "." |
| Login.EmailLikeOnOneLine | app/auth/login/route.ts:5-7 | without line breaks: an "@" with a character before it, then a "." at least two places later with a character after it |
| Login.EmailLikeExamples | app/auth/login/route.ts:5-7 | "ana@mail.com" is address-like; "ana", "@mail.com", "ana@.com", "ana@mail." and "ana.mail@com" are not |
| Login.LineBreakDefeatsMatch | app/auth/login/route.ts:6 | a line break between the "@" and the dot defeats the match, because "." does not match it |
| Login.DomainMakesEmailLike | app/admin/users/page.tsx:58 | a slug, a dash and a non-empty id followed by the synthetic domain look like an address |
| Login.SyntheticEmailIsEmailLike | app/admin/users/page.tsx:58 | every synthetic address createUser invents is address-like at login, so it is used to sign in as given |
| Login.Resolve | app/auth/login/route.ts:17-36 | an address-like identifier is used verbatim; otherwise a lookup error gives 500, no profile id gives 404 "Usuario no encontrado", a thrown account lookup gives 500; an account reply with an error, no user or no address gives 404 "No se encontró email para el usuario", and an account with an address gives that address |
| Login.SignInAs | app/auth/login/route.ts:17-47 | an answer of the resolution is returned as it is; with an address, acceptance redirects, a refusal gives 401 with the service's message, and a thrown sign-in gives 500 with the Error's message or "Error desconocido" |
| Login.Post | app/auth/login/route.ts:9-48 | 400 "Faltan datos" exactly when the trimmed identifier or the untrimmed password is empty; with both present the answer is the sign-in's; the redirect exactly when that succeeds; the only statuses are 400, 401, 404 and 500 |
| Login.EmailLikeSignsInDirectly | app/auth/login/route.ts:17-19 | for an address-like identifier, the redirect comes exactly when the service accepts that identifier and password, and the answer is never a 404 |
| Login.UnknownNameIsNotFound | app/auth/login/route.ts:19-29 | POST answers 404 "Usuario no encontrado" exactly when both fields are present, the identifier is not address-like and no profile id matches it |
| Login.AddressSkipsLookups | app/auth/login/route.ts:19-36 | for an address-like identifier the answer does not depend on the profile or account lookups |
| Login.RefusalIsReported | app/auth/login/route.ts:39-40 | a refused sign-in is answered with 401 and the service's own message |

## Left out

- The backend client and environment are out of scope: the Supabase clients, cookies, sessions and `createClient`/`createAdminClient`/`createActionClient`. Their answers are parameters, and failing to construct a client is not modelled.
- The stored procedures `increment_pago`/`decrement_pago` and the view `character_pagos_weekly` are out of scope: their SQL is not part of this model.
- Payments.PaymentLog.IncrementPayment: after a successful `increment_pago` call the contract promises nothing about `pagos_log` beyond its id invariant, because the procedure's effect on the table is not visible in this code.
- Payments.PaymentLog.DecrementPayment: the same holds after a successful `decrement_pago` call.
- Concurrency is not modelled: each action is one atomic step, so the race between the count and the insert cannot happen in the model.
- Time is simplified: one uniform reference of 86 400 000 ms days. There is no local time zone and no daylight saving.
- `Week.WeekWindow` does not model the range limit of JavaScript dates (±8.64e15 ms). Instants are unbounded integers.
- Payments.LatestInWindow: the store's order among records with equal `created_at` is not given, so the model takes the one inserted last. Row ids are natural numbers from a counter, where the store uses generated uuids.
- Payments.PaymentLog.FallbackIncrement: which week the new record falls in depends on the store's clock (`insertedAt`), which the code does not control. `Payments.AppendWeeklyCount` states the count rise for a stamp in the week of `now`.
- Characters.CreateCharacter, Characters.UpdateCharacter, Characters.DeleteCharacter: the write itself and its error are not modelled. The outcome is the write that would be issued, and a store error after it is rethrown as it came.
- `slugify`'s Unicode steps (`toLowerCase`, NFD normalisation and the removal of `\p{Diacritic}` characters) are not modelled. They are the `fold` parameter of `Users.CreateUser`, and `Users.Slugify` takes the folded name.
- Users.EmailField: `toLowerCase` of the address field is modelled for ASCII letters only.
- `Number(text)` parsing is not modelled: it is the `toNumber` parameter.
- `Math.random` is not modelled: the draws are index sequences (`suffixRolls`, `passwordRolls`), each index below 31.
- Users.CreateUser: the six address draws and the twelve password draws are two separate parameters, not one stream in call order. The draws are independent, so only their order is lost.
- Users.CreateUser: the account creation, the profile update and their `console.error` swallowing are not modelled.
- Users.UpdateUser and Users.DeleteUser: the calls to the auth admin API and the profile write that follow the checks are not modelled.
- JSX rendering, `revalidatePath`, the mechanics of `redirect` and `NextResponse`, and the page-load listing queries are not modelled; they are UI and I/O glue.
- Login.Post: takes the two form fields as already parsed. `req.formData()` at app/auth/login/route.ts:10 runs before the `try`, so a body that is not form data fails outside the handler's 500 path; that failure is not modelled.
- Login.Resolve: the PostgREST `.or(...)` filter, into which the identifier is interpolated, is the `findProfile` parameter. A `NULL` profile id reads as no row.
- `form.get` returning a file instead of text is not modelled. Fields are strings or absent.
