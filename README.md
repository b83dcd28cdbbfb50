# Authentication boundary of daily-vibecheck, in Dafny

This project models the authentication boundary of the daily-vibecheck SvelteKit
application and proves properties of it. The boundary has three parts.

- **Validation schemas** (`AuthSchemas`, `schemas.dfy`). `signUpSchema` and
  `signInSchema` are pure functions. Each turns a submitted payload into the
  command or into a non-empty list of field-scoped issues, with the source's
  fixed messages. Email syntax is an abstract predicate `isEmail`, passed to
  every validator.
- **Sign-up and sign-in logic** (`AuthMutations`, `mutations.dfy`). The class
  `AuthBoundary` stands for the injected collaborators. It holds the account
  store, plus logs of store lookups, of `auth.api.signUpEmail` bodies, of
  `auth.api.signInEmail` bodies and of issues reported through `invalid.email`.
  `SignUp` is the check-then-delegate rule. `SignIn` forwards the command
  verbatim. A failure of the store or of the provider is an input to the call
  (`Option<Fault>`), and it comes back unchanged as `Threw(fault)`.
  The pure functions `AfterSignUp` and `AfterSignUps` give the store after
  sign-ups in sequence. The lemmas about them state that email uniqueness is
  preserved.
- **Identity resolution and the authorization gate** (`AuthQueries`,
  `queries.dfy`). These are pure functions over an explicit request event.
  `GetUser` reads `locals.user`. `ValidateUser` returns the user, or
  `HttpError(401, "Unauthorized")` when `getUser()` yields `undefined` or
  `null`. `RequireUser` is the two composed as `index.remote.ts` wires them.

`Wrappers` (`wrappers.dfy`) holds the `Option` and `Result` datatypes.

Zod 4's string checks raise continuable issues, so the object-level `.refine`
runs whenever all four fields are strings. `SignUpIssues` therefore appends the
mismatch issue whenever `password != confirmPassword`, alongside any field
issues. Only the all-fields-valid case is stated as a property (`MismatchRule`).

## Model

| member | source | states |
|---|---|---|
| AuthSchemas.ValidateSignUp | src/lib/auth/schemas.ts:3-13 | sign-up succeeds iff name non-empty, email valid, password at least 8, confirmation non-empty and equal to the password; success returns the input unchanged; failure carries at least one issue |
| AuthSchemas.ValidateSignIn | src/lib/auth/schemas.ts:15-19 | sign-in succeeds iff email valid and password non-empty (no 8-character minimum); success returns the input, rememberMe included, unchanged; failure carries at least one issue |
| AuthSchemas.IssuesAtConcat | src/lib/auth/schemas.ts:4-13 | helper for the per-field lemmas: selecting one field's issues from the model's issue list distributes over concatenation |
| AuthSchemas.SignUpIssuesAt | src/lib/auth/schemas.ts:4-13 | one field's sign-up issues are the concatenation of what each rule contributes to that field |
| AuthSchemas.SignUpIssuesPerField | src/lib/auth/schemas.ts:4-13 | field checks are independent: name, email and password issues come from that field's own rule; confirmPassword carries its own rule's issue and the refine's |
| AuthSchemas.NameRule | src/lib/auth/schemas.ts:5 | empty name gives exactly "Name is required" on name; a non-empty name gives no issue on name |
| AuthSchemas.SignUpEmailRule | src/lib/auth/schemas.ts:6 | an email the predicate rejects gives exactly "Invalid email address" on email; an accepted one gives none there |
| AuthSchemas.PasswordLengthRule | src/lib/auth/schemas.ts:7 | a password shorter than 8 gives exactly "Password must be at least 8 characters" on password; 8 or more gives none there |
| AuthSchemas.ConfirmRule | src/lib/auth/schemas.ts:8 | an empty confirmation gives "Please confirm your password" on confirmPassword; a non-empty one never draws that issue |
| AuthSchemas.IssueInIssuesAt | src/lib/auth/schemas.ts:4-13 | helper for `ConfirmRule`: every issue in the model's issue list appears among the issues selected for its own field |
| AuthSchemas.MismatchRule | src/lib/auth/schemas.ts:10-13 | with every field valid, differing passwords give exactly the one issue "Passwords do not match" on confirmPassword, and equal passwords succeed with the input |
| AuthSchemas.CollectsEveryIssue | src/lib/auth/schemas.ts:4-13 | empty name and password "short" give both "Name is required" and the length issue, in field order, not short-circuited |
| AuthSchemas.SignUpIdempotent | src/lib/auth/schemas.ts:3-13 | an accepted sign-up command equals the input and is accepted again unchanged |
| AuthSchemas.SignInEmailRule | src/lib/auth/schemas.ts:16 | sign-in rejects an invalid email with exactly "Invalid email address" on email, and an accepted one gives none there |
| AuthSchemas.SignInPasswordRule | src/lib/auth/schemas.ts:17 | sign-in fails on the password with "Password is required" only when it is empty; valid email with any non-empty password is accepted |
| AuthSchemas.SignInIgnoresRememberMe | src/lib/auth/schemas.ts:18 | rememberMe absent, true or false changes neither acceptance nor the issues |
| AuthSchemas.SignInIdempotent | src/lib/auth/schemas.ts:15-19 | an accepted sign-in command equals the input and is accepted again unchanged |
| AuthMutations.Lookup | src/lib/auth/remotes/mutations.logic.ts:25 | the lookup returns only records whose email is exactly the given one, every such record, and is empty iff no account has that email |
| AuthMutations.AfterSignUpUnique | src/lib/auth/remotes/mutations.logic.ts:25-38 | one sign-up preserves "no two accounts share an email" |
| AuthMutations.AfterSignUpsUnique | src/lib/auth/remotes/mutations.logic.ts:25-38 | any sequence of sign-ups preserves "no two accounts share an email" |
| AuthMutations.AfterSignUpFinds | src/lib/auth/remotes/mutations.logic.ts:25-38 | after one sign-up, its email is found by the lookup, whether it was issued now or existed before |
| AuthMutations.AfterSignUpKeeps | src/lib/auth/remotes/mutations.logic.ts:27-38 | one sign-up removes no account: an email found before is still found after |
| AuthMutations.AfterSignUpsCovers | src/lib/auth/remotes/mutations.logic.ts:25-38 | after a sequence of sign-ups, every email signed up is found by the lookup |
| AuthMutations.AfterSignUpsKeeps | src/lib/auth/remotes/mutations.logic.ts:27-38 | sign-ups never remove an account: an email found before is still found after |
| AuthMutations.SameEmailTwice | src/lib/auth/remotes/mutations.logic.ts:25-38 | signing up one email twice creates the account once; the second sign-up finds it and leaves the store unchanged |
| AuthMutations.AuthBoundary.constructor | src/lib/auth/remotes/mutations.logic.ts:13-21 | collaborators over a given store with empty call logs |
| AuthMutations.AuthBoundary.SignUp | src/lib/auth/remotes/mutations.logic.ts:23-39 | one lookup on exactly the command's email; an existing account means one "An account with this email already exists" issue on email and no issuance; otherwise one issuance with exactly name, email and password and no issue; exactly one of the two; store faults and provider faults propagate unchanged; uniqueness preserved; nothing else changes |
| AuthMutations.AuthBoundary.SignIn | src/lib/auth/remotes/mutations.logic.ts:46-50 | one verification call whose body is the command unchanged; the provider's error propagates as is; no lookup, no issue, store untouched |
| AuthMutations.SignUpTwice | src/lib/auth/remotes/mutations.logic.ts:23-39 | two sign-ups with one email in sequence: one issuance, then the conflict issue, and one new account |
| AuthQueries.GetUser | src/lib/auth/remotes/queries.logic.ts:13-15 | returns exactly the request's `locals.user`, absent when there is none; never fails |
| AuthQueries.ValidateUser | src/lib/auth/remotes/queries.logic.ts:33-39 | succeeds iff a user is resolved, returning that user unchanged; `undefined` or `null` fail with status 401 and message "Unauthorized" |
| AuthQueries.RequireUser | src/lib/auth/remotes/index.remote.ts:13-20 | the gate over a request succeeds iff `locals.user` is present and then returns it; otherwise it fails with the 401 "Unauthorized" error |
| AuthQueries.ValidateUserDependsOnPresence | src/lib/auth/remotes/queries.logic.ts:34-37 | the gate's outcome depends only on whether and which user is resolved; `undefined` and `null` are refused alike |
| AuthQueries.AnonymousRequestRefused | src/lib/auth/remotes/queries.logic.ts:13-15 | an anonymous request reads back as absent, and the gate refuses it with status 401 and message "Unauthorized" |

## Left out

- Email syntax: zod's email regular expression is not modelled. Every validator takes an abstract predicate `isEmail` instead.
- String lengths are counted in characters of `seq<char>`. Zod counts UTF-16 code units.
- Non-string or missing payload fields are not modelled. Zod's type-mismatch issues are left out, because form fields are submitted as strings. `rememberMe` is an `Option<bool>`.
- Issue paths are a single field key, as every path in these schemas is. Zod's general path arrays are not modelled.
- `invalid.email` is modelled as appending an issue to a log. Whether SvelteKit's `invalid` throws belongs to the form wrapper, which is not part of this model.
- Lookup and issuance run one after the other within one call, and calls are sequential. The race between two concurrent sign-ups with the same email is not modelled, and no storage-level unique constraint is assumed.
- The provider's hashing, sessions, cookies and its own error taxonomy are outside the model. A fault is opaque and is never inspected. The account the provider creates is modelled as `Account(name, email)`; its id, verification flag and timestamps are left out.
- `User.image` has three states in the source (string, `null`, `undefined`). It is an `Option<string>`, so `null` and `undefined` collapse into one.
- Dates are opaque integers.
- A failure thrown by `getUser()` itself is not modelled; `getUserLogic` never fails.
- The framework wrappers are not part of this model: `form()`, `query()`, `getRequestEvent`, `redirect(303)`, `hooks.server.ts` session attachment and `src/routes/auth/auth.remote.ts`. Only the composition of `getUser` and `validateUser` is modelled, as `RequireUser`.
- Async scheduling is not modelled: each `await` is a sequential step.
