# Acme invoices: server actions and route gate

A Dafny model of the decision logic of a Next.js invoicing dashboard:

- the invoice form handlers `createInvoice`, `updateInvoice` and
  `deleteInvoice`. Create and update validate the form against the invoice
  schema and then do one write to the `invoices` table; delete takes only
  an `id` and goes straight to its DELETE. Each turns a store failure into a
  "Database Error: …" message, and on success invalidates
  `/dashboard/invoices`; create and update then redirect there;
- `authenticate`, which maps sign-in failures to fixed user messages and
  rethrows errors it does not recognise;
- the NextAuth `authorized` callback, a three-way decision over "is a user
  present" and the requested path, with `/login` as the sign-in page.

Modules, one per source file or component:

- `Wrappers` (`wrappers.dfy`): `Option`.
- `FormValidation` (`form_validation.dfy`): the three field rules of the zod
  schema (`id` and `date` are omitted for both create and update). It also
  has the issue list a parse produces and the `flatten().fieldErrors`
  grouping. Field rules are applied independently, so every failing field
  reports its issue.
- `InvoiceActions` (`invoice_actions.dfy`): the `invoices` table as a class
  `Database` whose `invoices: map<string, Invoice>` the INSERT, UPDATE and
  DELETE statements change in place. `PathCache` records the
  `revalidatePath` calls. The handlers are methods over both objects.
  `redirect`, which throws outside the handler's `try` and so always ends
  it, is the handler's result `Redirected(path)`. `authenticate` is a
  function of how `signIn` ended.
- `AuthConfig` (`auth_config.dfy`): `pages.signIn` and `authorized`.

Environment inputs become parameters:

- the store's answer to each statement is `DbOutcome = Ok | Err(text)`,
  where `text` is `String(error)`;
- the id the store assigns to a new row is `assignedId`;
- the date part of `new Date().toISOString()` is `today`;
- how `signIn` ended is a `SignIn` value.

The update handler puts its field errors under the key `error`, not
`errors`, so they do not appear where the `State` type puts them. The model
keeps this as written: `FormState` has both an `errors` and an `error`
field. The handlers' unused `prevState` argument is dropped.

## Model

| member | source | states |
|---|---|---|
| `FormValidation.Validate` | app/lib/action.ts:11-23 | A submission is accepted exactly when `customerId` is a string, the coerced `amount` is a number greater than 0, and `status` is `'paid'` or `'pending'`; the data carries those values. On failure the field errors name exactly the failing fields, at least one, each with its one message: the schema's custom message, or zod's default for a missing key, NaN or an unknown enum value |
| `FormValidation.FieldErrors` | app/lib/action.ts:43 | `flatten().fieldErrors`: a field has a key exactly when some issue is about it, and its list holds the messages of those issues in order (checked against the reference filter `MessagesOn`) |
| `FormValidation.FieldErrorsByRule` | app/lib/action.ts:11-21 | All issues are collected: each field's entry in the flattened errors is present exactly when that field's own rule fails and holds that rule's message alone |
| `FormValidation.CheckCustomerId` | app/lib/action.ts:13-15 | `customerId` passes exactly when it is a string, keeping it. Otherwise its message is zod's "Required" for a missing key and `'please select a customer'` for a file |
| `FormValidation.CheckAmount` | app/lib/action.ts:16 | `amount` passes exactly when its coerced value is a number greater than 0, keeping it. Otherwise its message is zod's type error for NaN and `'please input amount greater than 0$'` for any other number |
| `FormValidation.CheckStatus` | app/lib/action.ts:17-19 | `status` passes exactly when it is `'paid'` or `'pending'`, as the matching enum member. Otherwise its message is zod's "Required" when missing, `'please select a status'` for a non-string, and zod's enum message for another string |
| `FormValidation.Issues` | app/lib/action.ts:11-23 | A parse has no issues exactly when all three rules pass; the issues follow the schema's key order, at most one per key |
| `FormValidation.IssuesByField` | app/lib/action.ts:11-21 | The issues about each field are exactly the one its own rule yields; other fields' rules contribute nothing to it |
| `FormValidation.MessagesOnAppend` | app/lib/action.ts:43 | Appending an issue appends its message to its own field's list only |
| `FormValidation.MessagesOnConcat` | app/lib/action.ts:43 | Grouping distributes over concatenation of issue lists |
| `InvoiceActions.Database.Insert` | app/lib/action.ts:54-57 | A successful INSERT adds one row under the assigned key with the given columns; a failed one leaves the table unchanged; rows stay keyed by id |
| `InvoiceActions.Database.Update` | app/lib/action.ts:86-90 | A successful UPDATE changes customer, amount and status of the row with that id, if any; keys, that row's id and date, and all other rows are unchanged; a failed one changes nothing |
| `InvoiceActions.Database.Delete` | app/lib/action.ts:104 | A successful DELETE removes exactly the key `id`; a failed one changes nothing |
| `InvoiceActions.PathCache.RevalidatePath` | app/lib/action.ts:64 | Records one invalidation of the given path, after the earlier ones |
| `InvoiceActions.CreateInvoice` | app/lib/action.ts:37-67 | Rejected form: returns `{errors: fieldErrors, message: 'missing fileds. Failed to create invoice'}` with table and cache untouched. Store error: returns `{message: 'Database Error: Failed to create invoice: ' + text}` with no effect. Success: exactly one new row holding customer, `amount * 100`, status and `today`, every old row unchanged, one invalidation of `/dashboard/invoices`, then redirect there. Keeps rows keyed by id and amounts positive |
| `InvoiceActions.UpdateInvoice` | app/lib/action.ts:70-99 | Rejected form: field errors under `error` with message `'missing failed. Failed to update invoice'`, no write, no effect. Store error: the update error message, no effect. Success: only the matching row's customer, `amount * 100` and status change; its id, its date and all other rows do not. An unknown id leaves the table as it was and still redirects without error. One invalidation, then redirect. Keeps amounts positive |
| `InvoiceActions.DeleteInvoice` | app/lib/action.ts:101-109 | Store error: the delete error message, no effect. Success: only the row with that id is removed, `/dashboard/invoices` is invalidated exactly once, nothing is returned and there is no redirect |
| `InvoiceActions.Authenticate` | app/lib/action.ts:112-130 | A successful sign-in returns nothing. An `AuthError` returns a message, `'invalid credentials'` exactly for kind `CredentialsSignin` and `'something went wrong'` otherwise. Any other error is rethrown unchanged |
| `AuthConfig.IsLoggedIn` | auth.config.ts:14 | A request counts as logged in exactly when a session is present and carries a user |
| `AuthConfig.NextPath` | auth.config.ts:4-6 | An allowed request proceeds to its own path, a redirect goes to its location, and a refused one goes to the sign-in page `/login`, which is not protected |
| `AuthConfig.StartsWith` | auth.config.ts:15 | `startsWith` holds exactly when the prefix is a literal sequence prefix of the path |
| `AuthConfig.Authorized` | auth.config.ts:13-23 | A total decision over login and prefix only. Protected with a user: Allow. Protected without a user: Deny. Unprotected with a user: redirect to `/dashboard`. Unprotected without a user: Allow. Protected means the path starts with `/dashboard` |
| `AuthConfig.NoRedirectLoop` | auth.config.ts:4-23 | Following the decision once always lands on a page the same session is allowed: the sign-in page `/login` after a Deny, `/dashboard` after a redirect |
| `AuthConfig.PrefixNotSegment` | auth.config.ts:15 | For any session: `/dashboard`, `/dashboard/invoices` and `/dashboardfoo` all start with the protected prefix and `/dash` does not, so `/dashboardfoo` is allowed or denied like the dashboard and `/dash` is treated as a public page |

## Left out

- The Postgres connection, TLS and environment lookup (app/lib/action.ts:9) and SQL execution itself: a statement's result is the `DbOutcome` parameter.
- `InvoiceActions.CreateInvoice`: the store's id generator is not modelled. The handler requires that a successful insert used a key not already in the table, which is what the primary-key constraint enforces.
- Zod internals beyond the three field rules: the text of zod's default messages (kept as `ZodDefault(kind)`), and string-to-number coercion. `amount` arrives already as `Number(value)`: a finite real or NaN. Infinity is not represented.
- Floating point: `amount * 100` is exact multiplication over `real`; no rounding happens in the code either, and the integer column's reaction to a fractional cent is the store's concern.
- The clock and ISO date formatting: the date is the `today` parameter.
- Next.js `revalidatePath`/`redirect` mechanics, NextAuth `signIn` and provider wiring (`providers: []`), and `Response`/`URL` construction: these are recorded effects or result values only. A `signIn` that itself redirects throws a non-`AuthError`, which `Authenticate` rethrows like any other.
- `async`/`await` and concurrent submissions racing on the same row: each handler runs alone.
- The `prevState` arguments, which no handler reads.
