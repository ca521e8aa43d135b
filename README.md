# Sign-up handler and navigation routing of Chabod, in Dafny

Chabod is a multi-tenant church-community web application. This project models
two pieces of its decision logic and proves what they promise.

- **The sign-up form's submit handler** (`handleSignUp` in
  `src/components/Auth/SignUpForm.tsx`). It becomes the class `Auth.SignUpForm`:
  - The fields are the form's state: `email`, `password`, `fullName`,
    `termsAccepted`, `loading`, `showSignInOption` and `error`.
  - `HandleSignUp` runs the handler's steps in order: reset the error state,
    check the terms, check the trimmed name, raise `loading`, run the `try`
    block (`CreateAccount`), then `catch` and `finally`.
  - The backend's answers are parameters. One is the sign-up answer: an error
    message, or success with an optional user id. The other is the tenant
    association answer.
  - Every external call and every toast is appended to a trace, `effects`.
  - The method is proved against `Auth.Decide`, which picks the single
    terminal outcome, and `Auth.Effects`, which lists each outcome's trace.
  - The lemmas about those two functions state the call counts, the ordering
    and the toasts of every path.
  - The error-message classifier is the pure function
    `Auth.ClassifySignUpError`.
- **The navigation bar's path routing** (`src/components/Layout/NavBar.tsx`),
  in module `Layout`:
  - where the logo and the profile link lead;
  - whether the page is an authentication page;
  - which buttons the right-hand side shows, and the login link.
  - The two regular expressions are written out with an explicit segment
    extraction (`Layout.Segment`): the prefix match `^/tenant/([^/]+)` becomes
    `Layout.TenantSlug`, and the whole-path match `^/tenant/[^/]+/auth$`
    becomes `Layout.IsOnAuthPage`. The lemmas `Layout.TenantSlugSpec` and
    `Layout.IsOnAuthPageIff` tie each back to the pattern's meaning: the
    capture is the whole non-empty slash-free segment after `/tenant/`, and an
    auth page is that segment followed by `/auth` and nothing else.

Module `Text` models the JavaScript string operations the code relies on:
case-sensitive `includes` and `startsWith`, and `trim` over the ECMAScript
white-space and line-terminator characters. Module `Wrappers` holds `Option`,
which stands for TypeScript's optional values.

String matching follows the code, which uses `String.prototype.includes`.
It is case-sensitive: "user already registered" in lower case is not
recognised, and neither is "Password" with a capital P. The lemmas
`Auth.LowerCaseMarkerNotRecognised` and `Auth.CapitalisedPasswordNotRecognised`
state this.

## Model

| member | source | states |
|---|---|---|
| Text.IncludesIff | src/components/Auth/SignUpForm.tsx:93-94 | `includes` holds exactly when the substring occurs at some position |
| Text.IncludesInfix | src/components/Auth/SignUpForm.tsx:103-105 | a marker placed anywhere inside a message is found |
| Text.IncludesSameLength | src/components/Auth/SignUpForm.tsx:93-94 | a string no longer than the marker includes it only if it equals it |
| Text.MissingCharNotIncluded | src/components/Auth/SignUpForm.tsx:105 | a message lacking one of the marker's characters does not include it |
| Text.TrimStartSpec | src/components/Auth/SignUpForm.tsx:65 | trimming the start keeps a suffix, removes only white space, and stops at the first non-space character |
| Text.TrimEndSpec | src/components/Auth/SignUpForm.tsx:65 | trimming the end keeps a prefix, removes only white space, and stops at the last non-space character |
| Text.TrimSpec | src/components/Auth/SignUpForm.tsx:65 | `trim` returns the infix between a white-space head and a white-space tail, and its ends are not white space |
| Text.TrimEmptyIff | src/components/Auth/SignUpForm.tsx:65-67 | the trimmed name is empty exactly when the name is empty or all white space |
| Text.TrimIdempotent | src/components/Auth/SignUpForm.tsx:65 | trimming a trimmed name changes nothing |
| Auth.ClassifySignUpError | src/components/Auth/SignUpForm.tsx:90-111 | a rejection never carries an empty verbatim message, a verbatim message is the backend's own message, and the unknown error is given if and only if the message is empty |
| Auth.AlreadyRegisteredTakesPriority | src/components/Auth/SignUpForm.tsx:92-99 | either registration marker anywhere in the message gives the inline "already registered" class, whatever else the message holds |
| Auth.InvalidEmailBeatsPassword | src/components/Auth/SignUpForm.tsx:102-104 | without a registration marker, "invalid email" anywhere gives the email-format message, even when "password" is also present |
| Auth.PasswordRule | src/components/Auth/SignUpForm.tsx:105-106 | without the two earlier markers, "password" anywhere gives the password-length message |
| Auth.VerbatimExactlyWhenUnmatched | src/components/Auth/SignUpForm.tsx:101-110 | the backend's message is passed through verbatim if and only if it is non-empty and matches no marker |
| Auth.LowerCaseMarkerNotRecognised | src/components/Auth/SignUpForm.tsx:92-95 | matching is case-sensitive: "user already registered" is not the inline case |
| Auth.CapitalisedPasswordNotRecognised | src/components/Auth/SignUpForm.tsx:105-106 | matching is case-sensitive: "Password too short" does not give the password-length message |
| Auth.EffectsSummary | src/components/Auth/SignUpForm.tsx:55-139 | for every outcome, the number of sign-up, association, sign-out and `onSuccess` calls, and the exact list of toasts |
| Auth.CreatedSummary | src/components/Auth/SignUpForm.tsx:113-133 | success makes one sign-up call, associates only when a user was joined, never signs out, shows only the success toast, and calls `onSuccess` only when supplied |
| Auth.TermsCheckedFirst | src/components/Auth/SignUpForm.tsx:55-62 | unaccepted terms win over every other input: one destructive toast, no external call, no `onSuccess` |
| Auth.BlankNameRejected | src/components/Auth/SignUpForm.tsx:64-74 | an empty or white-space-only name with accepted terms gives one destructive toast and no external call |
| Auth.SignUpReceivesTrimmedName | src/components/Auth/SignUpForm.tsx:65-88 | once both checks pass, the first effect is the only sign-up call, with the trimmed name and the email and password unchanged |
| Auth.AlreadyRegisteredIsInlineOnly | src/components/Auth/SignUpForm.tsx:92-99 | a registration marker ends the submission with no toast and no call besides the sign-up |
| Auth.OtherErrorFails | src/components/Auth/SignUpForm.tsx:101-110 | any other sign-up error gives exactly one destructive "create account failed" toast carrying the classified message, and no other call |
| Auth.AssociationExactlyWhenTenantAndUser | src/components/Auth/SignUpForm.tsx:113-116 | association happens at most once, if and only if sign-up succeeded with a user and a non-empty slug is set; it comes right after sign-up with the user id, slug and invite token |
| Auth.FailedAssociationIsCompensated | src/components/Auth/SignUpForm.tsx:114-121 | a failed association gives exactly sign-up, association, sign-out and one destructive toast, in that order, with no `onSuccess` |
| Auth.SuccessPath | src/components/Auth/SignUpForm.tsx:124-133 | success gives one non-destructive toast that says "joined" if and only if a slug is set, no sign-out, and `onSuccess` exactly when supplied |
| Auth.JoinedToastWithoutAssociation | src/components/Auth/SignUpForm.tsx:114-129 | with a slug set but no user returned, the success toast still says "joined" although no association was made |
| Auth.OneTerminalOutcome | src/components/Auth/SignUpForm.tsx:50-143 | every submission shows exactly one toast except the inline "already registered" case, which shows none; sign-out happens if and only if association failed; sign-out ≤ association ≤ sign-up ≤ 1 |
| Auth.SignUpForm.constructor | src/components/Auth/SignUpForm.tsx:37-43 | the form starts empty and idle: empty fields, terms unaccepted, no error, no sign-in option, empty trace |
| Auth.SignUpForm.HandleFullNameChange | src/components/Auth/SignUpForm.tsx:46-48 | only the name changes |
| Auth.SignUpForm.SetEmail | src/components/Auth/SignUpForm.tsx:165 | only the email changes |
| Auth.SignUpForm.SetPassword | src/components/Auth/SignUpForm.tsx:166 | only the password changes |
| Auth.SignUpForm.SetTermsAccepted | src/components/Auth/SignUpForm.tsx:186 | only the terms acceptance changes |
| Auth.SignUpForm.HandleSignUp | src/components/Auth/SignUpForm.tsx:50-143 | the trace grows by exactly the effects of the decided outcome; the error and sign-in option are reset and then set only for an existing registration; `loading` goes true then false when the backend is reached and is untouched otherwise; the form fields are unchanged |
| Auth.SignUpForm.CreateAccount | src/components/Auth/SignUpForm.tsx:78-133 | the `try` block: it throws exactly the outcome's message, and its effects followed by the `catch` toast are the outcome's effects |
| Auth.SubmitKeepsIdle | src/components/Auth/SignUpForm.tsx:76-142 | a form that is not loading before a submission is not loading after it, and every submission has at least one effect |
| Layout.SegmentSpec | src/components/Layout/NavBar.tsx:38 | the extracted segment is a slash-free prefix that ends only at a `/` or at the end of the path |
| Layout.SegmentOfSlugThenSlash | src/components/Layout/NavBar.tsx:38 | a slash-free slug followed by nothing or by `/` is extracted whole |
| Layout.TenantSlugSpec | src/components/Layout/NavBar.tsx:38-41 | the tenant pattern matches if and only if the path starts with `/tenant/` and a slug; the capture is exactly the whole next segment |
| Layout.TenantSlugOfTenantPath | src/components/Layout/NavBar.tsx:38-41 | `/tenant/` + slug + a tail starting with `/` gives that slug back |
| Layout.TenantDestinations | src/components/Layout/NavBar.tsx:38-42 | on a tenant path, the logo leads to `/tenant/<slug>` and the profile link to `/tenant/<slug>/profile` |
| Layout.NonTenantDestinations | src/components/Layout/NavBar.tsx:45-65 | off tenant paths, including `/tenant/` with an empty slug, the logo leads to `/dashboard` exactly from `/profile` and to `/` otherwise; the profile link is `/profile` |
| Layout.LogoDestinationShape | src/components/Layout/NavBar.tsx:34-51 | the logo leads to `/`, `/dashboard` or a tenant home that prefixes the path; `/dashboard` if and only if the path is `/profile` |
| Layout.ProfileExtendsLogo | src/components/Layout/NavBar.tsx:38-41 | whenever the tenant pattern matches, the profile link is the logo link followed by `/profile` |
| Layout.IsOnAuthPageIff | src/components/Layout/NavBar.tsx:69-80 | an auth page is exactly `/auth` or `/tenant/<slug>/auth` with a non-empty slash-free slug and nothing after it |
| Layout.AuthPageExamples | src/components/Layout/NavBar.tsx:72-76 | `/auth` and `/tenant/acme/auth` are auth pages; `/auth/x`, `/tenant/a/auth/x` and `/tenant//auth` are not |
| Layout.LoginLinkRedirect | src/components/Layout/NavBar.tsx:117 | the login link is `/auth`, plus `?redirect=` and the encoded path if and only if the path is not `/` and does not start with `/auth` |
| Layout.AuthButtonsVisibility | src/components/Layout/NavBar.tsx:95-123 | login and sign-up buttons show if and only if nobody is signed in and the page is not an auth page; the user menu shows if and only if someone is; the sign-up link is always `/auth?tab=signup` |
| Layout.LogoExamples | src/components/Layout/NavBar.tsx:34-51 | concrete logo destinations for a tenant page, `/profile` and another page |
| Layout.ProfileExamples | src/components/Layout/NavBar.tsx:54-66 | concrete profile destinations on and off a tenant page |
| Layout.RightNavExamples | src/components/Layout/NavBar.tsx:95-113 | no buttons on `/auth` or a tenant auth page when signed out; login buttons elsewhere; the user menu when signed in |
| Layout.LoginLinkExamples | src/components/Layout/NavBar.tsx:117 | no redirect from `/`; the encoded path otherwise |

## Left out

- Rendering: the JSX of both components and the widget library are not modelled. That is `SignUpForm.tsx:145-198` and `NavBar.tsx:82-132`, apart from the navigation bar's conditional expressions above and the form's input change handlers (`SetEmail`, `SetPassword`, `SetTermsAccepted`).
- Translation: `t(...)` is not modelled. Message keys are datatype constructors (`Auth.MessageKey`), and `cannotJoinChurch` carries the association error as an opaque string.
- Toast rendering: a toast is recorded as its title key, its description and whether it is destructive.
- Backend calls: `supabase.auth.signUp`, `associateUserWithTenant` and `supabase.auth.signOut` are foreign code. Their results are parameters of `HandleSignUp`, and each call is recorded in the trace.
  - A sign-up that rejects by throwing, rather than returning an error, is not modelled.
  - An association failure is any rejection of `associateUserWithTenant`.
  - The compensating sign-out is assumed to return normally, since its result is discarded.
- `onSuccess` throwing: the callback is assumed to return normally. In the source it runs inside the `try` (`SignUpForm.tsx:131-133`), so if it throws, the `catch` (`SignUpForm.tsx:134-139`) adds a destructive "create account failed" toast after the success toast. The "exactly one toast" statements of `Auth.CreatedSummary`, `Auth.SuccessPath` and `Auth.OneTerminalOutcome` hold only under this assumption.
- Error message type: `error.message` is taken to be a string. The optional chaining at `SignUpForm.tsx:103-107` only matters for a missing message, which line 93 would already have failed on.
- Concurrency: `async`/`await` suspension and React's batching of state updates are not modelled. The handler runs as one sequential method. `loadingHistory` records each `setLoading` call, so the in-between `loading == true` state can be stated.
- Sign-out handler: `handleSignOut` in `NavBar.tsx:16-31` is I/O and a toast with no decision logic.
- Hooks: `useSession` and `useLocation` become inputs, namely whether a user is signed in and the pathname string.
- URL encoding: `encodeURIComponent` is the function parameter `encode`. Only whether the redirect is present, and what is passed to `encode`, are stated.
- Auth.LowerCaseMarkerNotRecognised: shows only that this one lower-case message is not the inline case, not a general statement about all case variants, because deciding `includes` on longer literal strings is expensive for the verifier.
- Auth.CapitalisedPasswordNotRecognised: covers one sample message with a capital P rather than every capitalised variant, for the same reason.
