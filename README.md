# Invoice creation and post-login redirect, modelled in Dafny

This project models the two pieces of decision logic in the MKR control hub,
a back office for invoices and payments built with Next.js and Supabase.

* **`createInvoice`**, the server action behind the "New Invoice" form
  (module `NewInvoice`). It reads the signed-in user and then normalises the
  submitted fields. Text fields are trimmed. A missing or empty total or
  deposit becomes 0. A missing or empty status becomes "Draft". A blank event
  date or blank notes become `null`. The balance is `total - deposit`. If the
  reference or the client name is blank, the action returns without
  inserting anything. Otherwise it inserts the row, throws an error carrying
  the insert error's message if the insert fails, and on success redirects to the invoice list. The Supabase calls are values
  here. The signed-in user is an `Option<UserId>` input. The insert is the
  `Insert(record)` outcome of `Plan`. The insert's answer is an optional error
  message given to `Respond`.
* **`LoginPage`'s choice of `nextPath`** (module `Login`). It takes the `next`
  query parameter, which may be a string, an array of strings or absent. For
  an array it uses the first element. It keeps the value when it starts with
  "/" and otherwise uses "/dashboard".

The JavaScript built-ins these rely on (`trim`, `startsWith`, `||` on a form
value) are modelled in `JsStrings`. `trim` removes the WhiteSpace and
LineTerminator code points of ECMA-262 from both ends. Amounts are exact
`real` values.

Behaviours of the code that the model keeps exactly as written:

* The `||` default is applied to the raw status before trimming. A status
  made only of white space is therefore stored as the empty string, not as
  "Draft" (`NewInvoice.BlankStatusIsNotDraft`). No status value is checked
  against the five options of the form's drop-down.
* The "/" test also admits `//host`. A browser reads that as a URL on another
  host, even though the comment on the check says only internal redirects are
  allowed (`Login.AcceptsProtocolRelative`).
* A blank reference or client name is not reported: the action just
  returns (`Rejected`, then `ReturnedEarly`).
* Only a missing or empty amount defaults to 0. What `Number` makes of any
  other text, including `NaN`, is left out (see below).

## Model

| member | source | states |
|---|---|---|
| `JsStrings.IsWhiteSpace` | app/dashboard/invoices/new/page.tsx:16-22 | the characters `trim()` removes are exactly the ECMA-262 WhiteSpace and LineTerminator code points |
| `JsStrings.StartsWith` | app/login/page.tsx:13 | `startsWith(prefix)` holds exactly when the string is at least as long as the prefix and agrees with it character by character |
| `JsStrings.TrimStart` | app/dashboard/invoices/new/page.tsx:16-22 | leading white space removed: the result is no longer than the input and does not start with white space |
| `JsStrings.TrimEnd` | app/dashboard/invoices/new/page.tsx:16-22 | trailing white space removed: the result is no longer than the input and does not end with white space |
| `JsStrings.TrimStartIsSuffix` | app/dashboard/invoices/new/page.tsx:16-22 | what `TrimStart` keeps is a suffix of the input, and everything it dropped is white space |
| `JsStrings.TrimEndIsPrefix` | app/dashboard/invoices/new/page.tsx:16-22 | what `TrimEnd` keeps is a prefix of the input, and everything it dropped is white space |
| `JsStrings.Trim` | app/dashboard/invoices/new/page.tsx:16-22 | `trim()`: the result neither starts nor ends with white space and is no longer than the input |
| `JsStrings.TrimIsInfix` | app/dashboard/invoices/new/page.tsx:16-22 | the trimmed string is an infix `s[i..j]` with only white space before `i` and after `j` |
| `JsStrings.TrimEmptyIff` | app/dashboard/invoices/new/page.tsx:16-22 | trimming gives "" exactly when every character is white space |
| `JsStrings.TrimOfTrimmed` | app/dashboard/invoices/new/page.tsx:16-22 | a string with no white space at either end is its own trim |
| `JsStrings.TrimIdempotent` | app/dashboard/invoices/new/page.tsx:16-22 | trimming twice equals trimming once |
| `JsStrings.OrElse` | app/dashboard/invoices/new/page.tsx:16-22 | the or-default `String(v or fallback)` gives the fallback exactly for a missing value, "" or the fallback itself, and the submitted string otherwise |
| `NewInvoice.TextField` | app/dashboard/invoices/new/page.tsx:16-18 | a text field is "" exactly when missing or all white space, and otherwise is the trimmed submission |
| `NewInvoice.Amount` | app/dashboard/invoices/new/page.tsx:19-20 | a missing or empty amount is 0; a submitted amount is kept as is |
| `NewInvoice.StatusField` | app/dashboard/invoices/new/page.tsx:21 | the status is "Draft" exactly when missing, empty or trimming to "Draft"; any other non-empty submission is stored trimmed |
| `NewInvoice.NullIfEmpty` | app/dashboard/invoices/new/page.tsx:24 | the empty string becomes `null`; any other string is kept |
| `NewInvoice.Normalize` | app/dashboard/invoices/new/page.tsx:16-25 | the row built for a user carries that user's id and `balance == total - deposit`, with no clamping or rounding |
| `NewInvoice.Plan` | app/dashboard/invoices/new/page.tsx:13-27 | no user means the login redirect and nothing else; an inserted row is the normalised form, with non-empty reference and client name |
| `NewInvoice.Respond` | app/dashboard/invoices/new/page.tsx:41-43 | the success redirect happens exactly when a row was inserted without error; an insert error is thrown with its message; a rejection returns silently |
| `NewInvoice.CreateInvoice` | app/dashboard/invoices/new/page.tsx:9-44 | an unauthenticated call ends at "/login"; reaching "/dashboard/invoices" means a row was inserted and the insert did not fail |
| `NewInvoice.UnauthenticatedInsertsNothing` | app/dashboard/invoices/new/page.tsx:13-14 | without a signed-in user the outcome is the login redirect, for every form and every insert answer |
| `NewInvoice.RejectedIff` | app/dashboard/invoices/new/page.tsx:16-27 | a signed-in submission is rejected if and only if the reference or client name is missing or white space only; otherwise exactly the normalised row is inserted |
| `NewInvoice.InsertedRefAndClient` | app/dashboard/invoices/new/page.tsx:16-32 | an inserted row belongs to the signed-in user and holds the trimmed reference and client name of non-blank submissions |
| `NewInvoice.NormalizedAmounts` | app/dashboard/invoices/new/page.tsx:19-25 | a missing total or deposit is stored as 0, a submitted one as is, and the balance is their exact difference |
| `NewInvoice.NormalizedEventDate` | app/dashboard/invoices/new/page.tsx:18-24 | the event date is `null` exactly when missing or blank, and otherwise the trimmed submission |
| `NewInvoice.NormalizedNotes` | app/dashboard/invoices/new/page.tsx:22-38 | the notes are `null` exactly when missing or blank, and otherwise the trimmed submission |
| `NewInvoice.NormalizedStatus` | app/dashboard/invoices/new/page.tsx:21 | the "Draft" default applies only to a missing or empty status; any other submission is stored trimmed, unchecked, so white space only gives "" |
| `NewInvoice.NormalizedTextIsTrimmed` | app/dashboard/invoices/new/page.tsx:16-24 | every stored text field is already its own trim |
| `NewInvoice.InsertErrorAborts` | app/dashboard/invoices/new/page.tsx:41-43 | an insert error never leads to the success redirect and is thrown with its message |
| `NewInvoice.BlankStatusIsNotDraft` | app/dashboard/invoices/new/page.tsx:21 | a concrete form whose status is two spaces is inserted with status "" and balance 500 |
| `Login.RawNext` | app/login/page.tsx:8 | `searchParams?.next` is undefined when the record or the key is absent, and the entry otherwise |
| `Login.NextValue` | app/login/page.tsx:9 | an array gives its first element; there is no value exactly for undefined or an empty array |
| `Login.NextPath` | app/login/page.tsx:12-15 | the chosen path always starts with "/" and is either "/dashboard" or the `next` value itself |
| `Login.KeepsSlashPrefixed` | app/login/page.tsx:13-14 | a `next` string starting with "/" is returned unchanged |
| `Login.FallsBackToDashboard` | app/login/page.tsx:8-15 | no query, no `next`, an empty array or a value not starting with "/" all give "/dashboard" |
| `Login.OnlyFromNext` | app/login/page.tsx:12-15 | any result other than "/dashboard" is the `next` value, which starts with "/" |
| `Login.ArrayUsesFirstOnly` | app/login/page.tsx:9 | a repeated `next` behaves as its first element alone; later elements are ignored |
| `Login.NextPathIdempotent` | app/login/page.tsx:12-15 | feeding the chosen path back in as `next` chooses the same path |
| `Login.AcceptsProtocolRelative` | app/login/page.tsx:11-14 | "//evil.example" is accepted as a redirect target |

## Left out

- `Number(...)` parsing of the total and deposit, including `NaN` for text that is not a number and floating-point rounding: amounts enter as already parsed exact `real` values, and only the missing-or-empty default of 0 is modelled.
- Form values that are `File` objects (`String(file)`): the form has no file inputs, so a field is either a string or missing.
- Supabase client creation, `auth.getUser` and the `insert` call: remote I/O, replaced by the optional user id, the `Insert` outcome and an optional insert error.
- `redirect` as a thrown navigation signal: it is a `RedirectTo` response value.
- The page-level login guard of `NewInvoicePage` (new/page.tsx:4-7) and all JSX markup, including the form definition: presentation only.
- `LoginClient` (React state, password sign-in, router navigation): UI and I/O; the model ends at the `nextPath` handed to it.
- The invoice list page, the dashboard and the root layouts: remote queries and rendering.
- Payment recording, payment sums and automatic status inference: none of them is part of the two modelled files.
