/**
  * The sign-up form's submission handler (`handleSignUp` in
  * src/components/Auth/SignUpForm.tsx).
  *
  * The handler checks two local preconditions (terms accepted, then a non-blank
  * name), asks the identity backend to create the account, classifies a
  * creation error by substrings of its message, associates the new user with
  * the tenant when there is one, signs the user out again when that association
  * fails, and ends with exactly one terminal outcome: an inline "already
  * registered" error, a destructive toast, or a success toast followed by the
  * `onSuccess` callback.
  *
  * The backend calls are not modelled: their results are parameters of the
  * handler, and every call and every toast is appended to a trace of effects.
  * Translated texts are opaque message keys.
  */
module Auth {
  import opened Wrappers
  import opened Text

  /** The translation keys the handler uses; their text never steers control flow. */
  datatype MessageKey =
    | PleaseAgreeToFaith
    | MustAgreeToRegister
    | NameCannotBeEmpty
    | PleaseEnterYourName
    | EmailAlreadyRegistered
    | UnknownError
    | EmailFormatIncorrect
    | PasswordMinLength
    | CannotJoinChurch(associateError: string)
    | AccountCreatedSuccess
    | AccountCreatedAndJoined(tenantSlug: string)
    | CheckEmailForConfirmation
    | CreateAccountFailed

  /** A user-facing text: a translated key, or a backend message shown as it came. */
  datatype Message = Translated(key: MessageKey) | Verbatim(text: string)

  datatype Toast = Toast(title: MessageKey, description: Message, destructive: bool)

  /** What the handler does to the world, in the order it does it. */
  datatype Effect =
    | SignUpCall(email: string, password: string, fullName: string)
    | AssociateCall(userId: string, tenantSlug: string, inviteToken: Option<string>)
    | SignOutCall
    | Notify(toast: Toast)
    | OnSuccessCall

  /** What `supabase.auth.signUp` resolves to: an error with a message, or data with an optional user. */
  datatype SignUpResponse = SignUpFailed(message: string) | SignedUp(userId: Option<string>)

  /** Whether `associateUserWithTenant` resolved or threw (and with what). */
  datatype AssociateResponse = Associated | AssociateFailed(reason: string)

  /** The form's inputs at the moment of submission. */
  datatype Submission = Submission(email: string, password: string, fullName: string, termsAccepted: bool)

  /** The component's props that the handler reads. */
  datatype Props = Props(tenantSlug: Option<string>, inviteToken: Option<string>, hasOnSuccess: bool)

  /** JavaScript truthiness of an optional string: present and non-empty. */
  predicate Truthy(s: Option<string>) {
    s.Some? && s.value != ""
  }

  // ---------------------------------------------------------------------------
  // Classifying a sign-up error
  // ---------------------------------------------------------------------------

  const UserAlreadyRegistered := "User already registered"
  const AlreadyBeenRegistered := "already been registered"
  const InvalidEmail := "invalid email"
  const PasswordMarker := "password"

  /** A sign-up error is either "already registered" (shown inline) or a failure with a message. */
  datatype ErrorClass = AlreadyRegistered | Rejected(message: Message)

  predicate MentionsRegistered(message: string) {
    Includes(message, UserAlreadyRegistered) || Includes(message, AlreadyBeenRegistered)
  }

  /**
    * The ordered, case-sensitive rule chain applied to a sign-up error message:
    * an "already registered" marker first, then "invalid email", then
    * "password", then the message itself when non-empty, else the unknown error.
    */
  function ClassifySignUpError(message: string): (c: ErrorClass)
    ensures c.Rejected? ==> c.message != Verbatim("")
    ensures c.Rejected? && c.message.Verbatim? ==> c.message.text == message
    ensures c == Rejected(Translated(UnknownError)) <==> message == ""
  {
    if MentionsRegistered(message) then AlreadyRegistered
    else if Includes(message, InvalidEmail) then Rejected(Translated(EmailFormatIncorrect))
    else if Includes(message, PasswordMarker) then Rejected(Translated(PasswordMinLength))
    else if message != "" then Rejected(Verbatim(message))
    else Rejected(Translated(UnknownError))
  }

  /** An "already registered" marker anywhere in the message wins over every other marker. */
  lemma AlreadyRegisteredTakesPriority(before: string, marker: string, after: string)
    requires marker == UserAlreadyRegistered || marker == AlreadyBeenRegistered
    ensures ClassifySignUpError(before + marker + after) == AlreadyRegistered
  {
    IncludesInfix(before, marker, after);
  }

  /** Without a registration marker, "invalid email" anywhere gives the email-format message. */
  lemma InvalidEmailBeatsPassword(before: string, after: string)
    requires !MentionsRegistered(before + InvalidEmail + after)
    ensures ClassifySignUpError(before + InvalidEmail + after) == Rejected(Translated(EmailFormatIncorrect))
  {
    IncludesInfix(before, InvalidEmail, after);
  }

  /** Without the two earlier markers, "password" anywhere gives the password-length message. */
  lemma PasswordRule(before: string, after: string)
    requires !MentionsRegistered(before + PasswordMarker + after)
    requires !Includes(before + PasswordMarker + after, InvalidEmail)
    ensures ClassifySignUpError(before + PasswordMarker + after) == Rejected(Translated(PasswordMinLength))
  {
    IncludesInfix(before, PasswordMarker, after);
  }

  /** The backend's message is passed through verbatim exactly when no marker matches and it is non-empty. */
  lemma VerbatimExactlyWhenUnmatched(message: string)
    ensures ClassifySignUpError(message) == Rejected(Verbatim(message)) <==>
      message != "" && !MentionsRegistered(message) &&
      !Includes(message, InvalidEmail) && !Includes(message, PasswordMarker)
  {
  }

  /**
    * Matching is case-sensitive: a lower-case "user already registered" is not
    * an "already registered" marker, so it is not shown inline.
    */
  lemma LowerCaseMarkerNotRecognised(message: string)
    requires message == "user already registered"
    ensures ClassifySignUpError(message) != AlreadyRegistered
  {
    IncludesSameLength(message, UserAlreadyRegistered);
    IncludesSameLength(message, AlreadyBeenRegistered);
  }

  /**
    * Matching is case-sensitive: a message that says "Password" with a capital P
    * does not get the password-length message.
    */
  lemma CapitalisedPasswordNotRecognised(message: string)
    requires message == "Password too short"
    ensures ClassifySignUpError(message) != Rejected(Translated(PasswordMinLength))
  {
    MissingCharNotIncluded(message, PasswordMarker, 0);
  }

  // ---------------------------------------------------------------------------
  // The terminal outcome and the effects of one submission
  // ---------------------------------------------------------------------------

  /** The one terminal outcome of a submission. */
  datatype Outcome =
    | TermsNotAccepted
    | NameEmpty
    | EmailTaken
    | CreateFailed(description: Message)
    | JoinFailed(userId: string, reason: string)
    | Created(joinedAs: Option<string>)

  /** Which outcome a submission reaches, given what the backend answers. */
  function Decide(sub: Submission, props: Props, signUp: SignUpResponse, associate: AssociateResponse): Outcome {
    if !sub.termsAccepted then TermsNotAccepted
    else if Trim(sub.fullName) == "" then NameEmpty
    else BackendOutcome(props, signUp, associate)
  }

  /** The outcome once both local checks have passed and the backend has been reached. */
  function BackendOutcome(props: Props, signUp: SignUpResponse, associate: AssociateResponse): Outcome {
    match signUp
      case SignUpFailed(m) =>
        (match ClassifySignUpError(m)
         case AlreadyRegistered => EmailTaken
         case Rejected(d) => CreateFailed(d))
      case SignedUp(user) =>
        if Truthy(props.tenantSlug) && user.Some? then
          (match associate
           case Associated => Created(user)
           case AssociateFailed(r) => JoinFailed(user.value, r))
        else Created(None)
  }

  /** The message of the error thrown towards the `catch` block, if the outcome throws one. */
  function Thrown(o: Outcome): Option<Message> {
    match o
    case CreateFailed(d) => Some(d)
    case JoinFailed(_, r) => Some(Translated(CannotJoinChurch(r)))
    case _ => None
  }

  /** The destructive toast of the `catch` block: the thrown message, or the unknown error when it is empty. */
  function FailureToast(thrown: Message): Toast {
    Toast(CreateAccountFailed, if thrown == Verbatim("") then Translated(UnknownError) else thrown, true)
  }

  /** The success toast: its description says "joined" whenever a tenant slug is set. */
  function SuccessToast(tenantSlug: Option<string>): Toast {
    Toast(AccountCreatedSuccess,
          Translated(if Truthy(tenantSlug) then AccountCreatedAndJoined(tenantSlug.value) else CheckEmailForConfirmation),
          false)
  }

  const TermsToast := Toast(PleaseAgreeToFaith, Translated(MustAgreeToRegister), true)
  const NameToast := Toast(NameCannotBeEmpty, Translated(PleaseEnterYourName), true)

  /** The trace of effects each outcome produces, in order. */
  function Effects(sub: Submission, props: Props, o: Outcome): seq<Effect> {
    var signUp := SignUpCall(sub.email, sub.password, Trim(sub.fullName));
    var slug := props.tenantSlug.GetOr("");
    match o
    case TermsNotAccepted => [Notify(TermsToast)]
    case NameEmpty => [Notify(NameToast)]
    case EmailTaken => [signUp]
    case CreateFailed(d) => [signUp, Notify(FailureToast(d))]
    case JoinFailed(u, r) =>
      [signUp, AssociateCall(u, slug, props.inviteToken), SignOutCall,
       Notify(FailureToast(Translated(CannotJoinChurch(r))))]
    case Created(joined) =>
      [signUp]
      + (if joined.Some? then [AssociateCall(joined.value, slug, props.inviteToken)] else [])
      + [Notify(SuccessToast(props.tenantSlug))]
      + (if props.hasOnSuccess then [OnSuccessCall] else [])
  }

  // ---------------------------------------------------------------------------
  // Counting effects
  // ---------------------------------------------------------------------------

  datatype Kind = SignUpKind | AssociateKind | SignOutKind | ToastKind | OnSuccessKind

  function KindOf(e: Effect): Kind {
    match e
    case SignUpCall(_, _, _) => SignUpKind
    case AssociateCall(_, _, _) => AssociateKind
    case SignOutCall => SignOutKind
    case Notify(_) => ToastKind
    case OnSuccessCall => OnSuccessKind
  }

  /** How many effects of kind `k` the trace holds. */
  function Count(s: seq<Effect>, k: Kind): nat {
    if s == [] then 0 else (if KindOf(s[0]) == k then 1 else 0) + Count(s[1..], k)
  }

  /** The toasts of a trace, in order. */
  function Toasts(s: seq<Effect>): seq<Toast> {
    if s == [] then [] else (if s[0].Notify? then [s[0].toast] else []) + Toasts(s[1..])
  }

  /** The number of calls to the identity backend and to the tenant service. */
  function ExternalCalls(s: seq<Effect>): nat {
    Count(s, SignUpKind) + Count(s, AssociateKind) + Count(s, SignOutKind)
  }

  /** Counting and collecting toasts over a trace that starts with `x`. */
  lemma CountCons(x: Effect, s: seq<Effect>)
    ensures forall k :: Count([x] + s, k) == (if KindOf(x) == k then 1 else 0) + Count(s, k)
    ensures Toasts([x] + s) == (if x.Notify? then [x.toast] else []) + Toasts(s)
  {
    assert ([x] + s)[1..] == s;
  }

  /** Counting and collecting toasts over a one-effect trace. */
  lemma CountOne(x: Effect)
    ensures forall k :: Count([x], k) == (if KindOf(x) == k then 1 else 0)
    ensures Toasts([x]) == (if x.Notify? then [x.toast] else [])
  {
    assert [x][1..] == [];
  }

  /**
    * What each outcome's trace holds: how many calls of each kind, and which
    * toasts. Every trace holds at most one call of each kind and at most one toast.
    */
  lemma EffectsSummary(sub: Submission, props: Props, o: Outcome)
    ensures var e := Effects(sub, props, o);
      Count(e, SignUpKind) == (if o.TermsNotAccepted? || o.NameEmpty? then 0 else 1) &&
      Count(e, AssociateKind) == (if o.JoinFailed? || (o.Created? && o.joinedAs.Some?) then 1 else 0) &&
      Count(e, SignOutKind) == (if o.JoinFailed? then 1 else 0) &&
      Count(e, OnSuccessKind) == (if o.Created? && props.hasOnSuccess then 1 else 0)
    ensures Toasts(Effects(sub, props, o)) ==
      match o
      case TermsNotAccepted => [TermsToast]
      case NameEmpty => [NameToast]
      case EmailTaken => []
      case CreateFailed(d) => [FailureToast(d)]
      case JoinFailed(_, r) => [FailureToast(Translated(CannotJoinChurch(r)))]
      case Created(_) => [SuccessToast(props.tenantSlug)]
  {
    var e := Effects(sub, props, o);
    var signUp := SignUpCall(sub.email, sub.password, Trim(sub.fullName));
    var slug := props.tenantSlug.GetOr("");
    match o
    case TermsNotAccepted =>
      CountOne(Notify(TermsToast));
    case NameEmpty =>
      CountOne(Notify(NameToast));
    case EmailTaken =>
      CountOne(signUp);
    case CreateFailed(d) =>
      CountTwo(signUp, Notify(FailureToast(d)));
    case JoinFailed(u, r) =>
      var call := AssociateCall(u, slug, props.inviteToken);
      var t := Notify(FailureToast(Translated(CannotJoinChurch(r))));
      CountFour(signUp, call, SignOutCall, t);
      CountThree(call, SignOutCall, t);
      CountTwo(SignOutCall, t);
    case Created(joined) =>
      CreatedSummary(sub, props, joined);
  }

  /** Counting over a two-effect trace. */
  lemma CountTwo(a: Effect, b: Effect)
    ensures forall k ::
      Count([a, b], k) == (if KindOf(a) == k then 1 else 0) + (if KindOf(b) == k then 1 else 0)
    ensures Toasts([a, b]) == (if a.Notify? then [a.toast] else []) + (if b.Notify? then [b.toast] else [])
  {
    CountOne(b);
    assert [a, b] == [a] + [b];
    CountCons(a, [b]);
  }

  /** Counting over a three-effect trace. */
  lemma CountThree(a: Effect, b: Effect, c: Effect)
    ensures forall k ::
      Count([a, b, c], k) == (if KindOf(a) == k then 1 else 0) + Count([b, c], k)
    ensures Toasts([a, b, c]) == (if a.Notify? then [a.toast] else []) + Toasts([b, c])
  {
    assert [a, b, c] == [a] + [b, c];
    CountCons(a, [b, c]);
  }

  /** Counting over a four-effect trace. */
  lemma CountFour(a: Effect, b: Effect, c: Effect, d: Effect)
    ensures forall k ::
      Count([a, b, c, d], k) == (if KindOf(a) == k then 1 else 0) + Count([b, c, d], k)
    ensures Toasts([a, b, c, d]) == (if a.Notify? then [a.toast] else []) + Toasts([b, c, d])
  {
    assert [a, b, c, d] == [a] + [b, c, d];
    CountCons(a, [b, c, d]);
  }

  /** The successful outcome's trace: sign-up, the association if one was made, the success toast, `onSuccess` if supplied. */
  lemma CreatedSummary(sub: Submission, props: Props, joined: Option<string>)
    ensures var e := Effects(sub, props, Created(joined));
      Count(e, SignUpKind) == 1 &&
      Count(e, AssociateKind) == (if joined.Some? then 1 else 0) &&
      Count(e, SignOutKind) == 0 &&
      Count(e, OnSuccessKind) == (if props.hasOnSuccess then 1 else 0) &&
      Toasts(e) == [SuccessToast(props.tenantSlug)]
  {
    var e := Effects(sub, props, Created(joined));
    var signUp := SignUpCall(sub.email, sub.password, Trim(sub.fullName));
    var t := Notify(SuccessToast(props.tenantSlug));
    if joined.Some? {
      var call := AssociateCall(joined.value, props.tenantSlug.GetOr(""), props.inviteToken);
      if props.hasOnSuccess {
        assert e == [signUp, call, t, OnSuccessCall];
        CountFour(signUp, call, t, OnSuccessCall);
        CountThree(call, t, OnSuccessCall);
        CountTwo(t, OnSuccessCall);
      } else {
        assert e == [signUp, call, t];
        CountThree(signUp, call, t);
        CountTwo(call, t);
      }
    } else {
      if props.hasOnSuccess {
        assert e == [signUp, t, OnSuccessCall];
        CountThree(signUp, t, OnSuccessCall);
        CountTwo(t, OnSuccessCall);
      } else {
        assert e == [signUp, t];
        CountTwo(signUp, t);
      }
    }
  }

  // ---------------------------------------------------------------------------
  // Properties of one submission
  // ---------------------------------------------------------------------------

  /**
    * Terms are checked first: whatever the name and whatever the backend would
    * answer, an unaccepted submission shows one destructive toast and calls nothing.
    */
  lemma TermsCheckedFirst(sub: Submission, props: Props, signUp: SignUpResponse, associate: AssociateResponse)
    requires !sub.termsAccepted
    ensures Decide(sub, props, signUp, associate) == TermsNotAccepted
    ensures var e := Effects(sub, props, Decide(sub, props, signUp, associate));
      ExternalCalls(e) == 0 && Count(e, OnSuccessKind) == 0 &&
      Toasts(e) == [TermsToast] && TermsToast.destructive
  {
    EffectsSummary(sub, props, TermsNotAccepted);
  }

  /** A blank or white-space-only name, once terms are accepted, shows one destructive toast and calls nothing. */
  lemma BlankNameRejected(sub: Submission, props: Props, signUp: SignUpResponse, associate: AssociateResponse)
    requires sub.termsAccepted && AllSpace(sub.fullName)
    ensures Decide(sub, props, signUp, associate) == NameEmpty
    ensures var e := Effects(sub, props, Decide(sub, props, signUp, associate));
      ExternalCalls(e) == 0 && Count(e, OnSuccessKind) == 0 &&
      Toasts(e) == [NameToast] && NameToast.destructive
  {
    TrimEmptyIff(sub.fullName);
    EffectsSummary(sub, props, NameEmpty);
  }

  /**
    * Once both local checks pass, the first effect is the one and only sign-up
    * call, and it carries the trimmed name with the email and password unchanged.
    */
  lemma SignUpReceivesTrimmedName(sub: Submission, props: Props, signUp: SignUpResponse, associate: AssociateResponse)
    requires sub.termsAccepted && !AllSpace(sub.fullName)
    ensures var e := Effects(sub, props, Decide(sub, props, signUp, associate));
      |e| > 0 && e[0] == SignUpCall(sub.email, sub.password, Trim(sub.fullName)) && Count(e, SignUpKind) == 1
  {
    TrimEmptyIff(sub.fullName);
    EffectsSummary(sub, props, Decide(sub, props, signUp, associate));
  }

  /**
    * A sign-up error that mentions an existing registration ends with the inline
    * error only: one sign-up call, no toast, no association, no sign-out.
    */
  lemma AlreadyRegisteredIsInlineOnly(sub: Submission, props: Props, message: string, associate: AssociateResponse)
    requires sub.termsAccepted && !AllSpace(sub.fullName) && MentionsRegistered(message)
    ensures Decide(sub, props, SignUpFailed(message), associate) == EmailTaken
    ensures var e := Effects(sub, props, EmailTaken);
      Toasts(e) == [] && ExternalCalls(e) == 1 && Count(e, SignUpKind) == 1 && Count(e, OnSuccessKind) == 0
  {
    TrimEmptyIff(sub.fullName);
    EffectsSummary(sub, props, EmailTaken);
  }

  /**
    * Any other sign-up error ends with exactly one destructive "create account
    * failed" toast whose description is the classified message, and no call
    * besides the sign-up itself.
    */
  lemma OtherErrorFails(sub: Submission, props: Props, message: string, associate: AssociateResponse)
    requires sub.termsAccepted && !AllSpace(sub.fullName) && !MentionsRegistered(message)
    ensures var e := Effects(sub, props, Decide(sub, props, SignUpFailed(message), associate));
      Toasts(e) == [Toast(CreateAccountFailed, ClassifySignUpError(message).message, true)] &&
      ExternalCalls(e) == 1 && Count(e, SignUpKind) == 1 && Count(e, OnSuccessKind) == 0
  {
    TrimEmptyIff(sub.fullName);
    EffectsSummary(sub, props, Decide(sub, props, SignUpFailed(message), associate));
  }

  /**
    * The tenant service is called at most once, and exactly when both local checks
    * pass, the sign-up succeeded with a user, and a non-empty tenant slug is set;
    * the call comes right after the sign-up call and carries that user's id, the
    * slug and the invite token.
    */
  lemma AssociationExactlyWhenTenantAndUser(sub: Submission, props: Props, signUp: SignUpResponse, associate: AssociateResponse)
    ensures var e := Effects(sub, props, Decide(sub, props, signUp, associate));
      Count(e, AssociateKind) <= 1 &&
      (Count(e, AssociateKind) == 1 <==>
        sub.termsAccepted && !AllSpace(sub.fullName) && signUp.SignedUp? && signUp.userId.Some? && Truthy(props.tenantSlug))
    ensures var e := Effects(sub, props, Decide(sub, props, signUp, associate));
      Count(e, AssociateKind) == 1 ==>
        |e| > 1 && e[1] == AssociateCall(signUp.userId.value, props.tenantSlug.value, props.inviteToken)
  {
    TrimEmptyIff(sub.fullName);
    EffectsSummary(sub, props, Decide(sub, props, signUp, associate));
  }

  /**
    * When the association fails, the user is signed out exactly once, after the
    * association call and before the single destructive toast; no success toast
    * follows and `onSuccess` is not invoked.
    */
  lemma FailedAssociationIsCompensated(sub: Submission, props: Props, userId: string, reason: string)
    requires sub.termsAccepted && !AllSpace(sub.fullName) && Truthy(props.tenantSlug)
    ensures var e := Effects(sub, props, Decide(sub, props, SignedUp(Some(userId)), AssociateFailed(reason)));
      e == [SignUpCall(sub.email, sub.password, Trim(sub.fullName)),
            AssociateCall(userId, props.tenantSlug.value, props.inviteToken),
            SignOutCall,
            Notify(Toast(CreateAccountFailed, Translated(CannotJoinChurch(reason)), true))] &&
      Count(e, SignOutKind) == 1 && Count(e, OnSuccessKind) == 0 && Toasts(e) == [e[3].toast]
  {
    TrimEmptyIff(sub.fullName);
    EffectsSummary(sub, props, JoinFailed(userId, reason));
  }

  /**
    * A successful submission shows exactly one non-destructive toast, invokes
    * `onSuccess` exactly when it was supplied, never signs out, and says "joined"
    * in the toast exactly when a tenant slug is set.
    */
  lemma SuccessPath(sub: Submission, props: Props, signUp: SignUpResponse, associate: AssociateResponse)
    requires Decide(sub, props, signUp, associate).Created?
    ensures var e := Effects(sub, props, Decide(sub, props, signUp, associate));
      |Toasts(e)| == 1 && !Toasts(e)[0].destructive &&
      Toasts(e)[0].description.Translated? &&
      (Toasts(e)[0].description.key.AccountCreatedAndJoined? <==> Truthy(props.tenantSlug)) &&
      Count(e, SignOutKind) == 0 &&
      Count(e, OnSuccessKind) == (if props.hasOnSuccess then 1 else 0)
  {
    EffectsSummary(sub, props, Decide(sub, props, signUp, associate));
  }

  /**
    * The success toast says the user joined the tenant whenever a slug is set,
    * even when the backend returned no user and so no association was made.
    */
  lemma JoinedToastWithoutAssociation(sub: Submission, props: Props, associate: AssociateResponse)
    requires sub.termsAccepted && !AllSpace(sub.fullName) && Truthy(props.tenantSlug)
    ensures var e := Effects(sub, props, Decide(sub, props, SignedUp(None), associate));
      Count(e, AssociateKind) == 0 &&
      Toasts(e) == [Toast(AccountCreatedSuccess, Translated(AccountCreatedAndJoined(props.tenantSlug.value)), false)]
  {
    TrimEmptyIff(sub.fullName);
    EffectsSummary(sub, props, Created(None));
  }

  /**
    * Every submission shows exactly one toast, except the inline "already
    * registered" outcome which shows none; `onSuccess` runs only on success;
    * sign-out happens exactly on a failed association; and there is never more
    * than one sign-up, association or sign-out call, each only after the one before.
    */
  lemma OneTerminalOutcome(sub: Submission, props: Props, signUp: SignUpResponse, associate: AssociateResponse)
    ensures var o := Decide(sub, props, signUp, associate);
      var e := Effects(sub, props, o);
      |Toasts(e)| == (if o == EmailTaken then 0 else 1) &&
      (Count(e, OnSuccessKind) == 1 ==> o.Created?) &&
      (Count(e, SignOutKind) == 1 <==> o.JoinFailed?) &&
      Count(e, SignOutKind) <= Count(e, AssociateKind) <= Count(e, SignUpKind) <= 1
  {
    EffectsSummary(sub, props, Decide(sub, props, signUp, associate));
  }

  // ---------------------------------------------------------------------------
  // The component
  // ---------------------------------------------------------------------------

  /**
    * The sign-up form component: its props, the form fields it holds in state,
    * the `loading`, `showSignInOption` and `error` state, and the trace of what
    * its handler has done so far.
    */
  class SignUpForm {
    const props: Props

    var email: string
    var password: string
    var fullName: string
    var termsAccepted: bool

    var loading: bool
    var showSignInOption: bool
    var error: Option<Message>

    /** Every backend call, toast and callback so far, in order. */
    var effects: seq<Effect>
    /** Every value passed to `setLoading` so far, in order. */
    ghost var loadingHistory: seq<bool>

    /** Between two submissions the form is not loading. */
    ghost predicate Idle()
      reads this
    {
      !loading
    }

    function CurrentSubmission(): Submission
      reads this
    {
      Submission(email, password, fullName, termsAccepted)
    }

    /** Mounting: every `useState` starts at its initial value. */
    constructor (props: Props)
      ensures this.props == props && Idle()
      ensures email == "" && password == "" && fullName == "" && !termsAccepted
      ensures !showSignInOption && error == None
      ensures effects == [] && loadingHistory == []
    {
      this.props := props;
      email, password, fullName, termsAccepted := "", "", "", false;
      loading, showSignInOption, error := false, false, None;
      effects, loadingHistory := [], [];
    }

    /** `handleFullNameChange`: the name field takes the typed value as it is, untrimmed. */
    method HandleFullNameChange(value: string)
      modifies this
      ensures fullName == value
      ensures email == old(email) && password == old(password) && termsAccepted == old(termsAccepted)
      ensures loading == old(loading) && showSignInOption == old(showSignInOption) && error == old(error)
      ensures effects == old(effects) && loadingHistory == old(loadingHistory)
    {
      fullName := value;
    }

    /** `setEmail`, the email input's change handler: only the email changes. */
    method SetEmail(value: string)
      modifies this
      ensures email == value
      ensures password == old(password) && fullName == old(fullName) && termsAccepted == old(termsAccepted)
      ensures loading == old(loading) && showSignInOption == old(showSignInOption) && error == old(error)
      ensures effects == old(effects) && loadingHistory == old(loadingHistory)
    {
      email := value;
    }

    /** `setPassword`, the password input's change handler: only the password changes. */
    method SetPassword(value: string)
      modifies this
      ensures password == value
      ensures email == old(email) && fullName == old(fullName) && termsAccepted == old(termsAccepted)
      ensures loading == old(loading) && showSignInOption == old(showSignInOption) && error == old(error)
      ensures effects == old(effects) && loadingHistory == old(loadingHistory)
    {
      password := value;
    }

    /** `setTermsAccepted`, the terms checkbox's change handler: only the acceptance changes. */
    method SetTermsAccepted(accepted: bool)
      modifies this
      ensures termsAccepted == accepted
      ensures email == old(email) && password == old(password) && fullName == old(fullName)
      ensures loading == old(loading) && showSignInOption == old(showSignInOption) && error == old(error)
      ensures effects == old(effects) && loadingHistory == old(loadingHistory)
    {
      termsAccepted := accepted;
    }

    /**
      * `handleSignUp`, with the backend's answers given as parameters. The trace
      * grows by exactly the effects of the outcome `Decide` names; the inline
      * error is set only for an existing registration; `loading` is raised and
      * lowered once each when the backend is reached, and untouched otherwise.
      */
    method HandleSignUp(signUp: SignUpResponse, associate: AssociateResponse)
      modifies this
      ensures email == old(email) && password == old(password) && fullName == old(fullName)
      ensures termsAccepted == old(termsAccepted)
      ensures effects == old(effects) + Effects(old(CurrentSubmission()), props, Decide(old(CurrentSubmission()), props, signUp, associate))
      ensures var o := Decide(old(CurrentSubmission()), props, signUp, associate);
        error == (if o == EmailTaken then Some(Translated(EmailAlreadyRegistered)) else None) &&
        showSignInOption == (o == EmailTaken)
      ensures var o := Decide(old(CurrentSubmission()), props, signUp, associate);
        var reachedBackend := !(o == TermsNotAccepted || o == NameEmpty);
        loading == (if reachedBackend then false else old(loading)) &&
        loadingHistory == old(loadingHistory) + (if reachedBackend then [true, false] else [])
    {
      error := None;
      showSignInOption := false;

      if !termsAccepted {
        effects := effects + [Notify(TermsToast)];
        return;
      }

      var trimmedFullName := Trim(fullName);
      if trimmedFullName == "" {
        effects := effects + [Notify(NameToast)];
        return;
      }

      loading := true;
      loadingHistory := loadingHistory + [true];

      var thrown := CreateAccount(trimmedFullName, signUp, associate);

      // catch
      if thrown.Some? {
        effects := effects + [Notify(FailureToast(thrown.value))];
      }
      // finally
      loading := false;
      loadingHistory := loadingHistory + [false];
    }

    /**
      * The `try` block of `handleSignUp`: the sign-up call, the classification of
      * its error, the tenant association and its compensating sign-out, and the
      * success toast. It returns the message of the error it throws, if any; the
      * caller's `catch` turns that into the failure toast.
      */
    method CreateAccount(trimmedFullName: string, signUp: SignUpResponse, associate: AssociateResponse)
      returns (thrown: Option<Message>)
      requires trimmedFullName == Trim(fullName)
      modifies this`effects, this`error, this`showSignInOption
      ensures var o := BackendOutcome(props, signUp, associate);
        thrown == Thrown(o) &&
        effects + (if thrown.Some? then [Notify(FailureToast(thrown.value))] else [])
          == old(effects) + Effects(CurrentSubmission(), props, o)
      ensures var o := BackendOutcome(props, signUp, associate);
        error == (if o == EmailTaken then Some(Translated(EmailAlreadyRegistered)) else old(error)) &&
        showSignInOption == (o == EmailTaken || old(showSignInOption))
    {
      ghost var before := effects;
      thrown := None;
      var signUpCall := SignUpCall(email, password, trimmedFullName);
      effects := effects + [signUpCall];
      match signUp {
        case SignUpFailed(message) =>
          var c := ClassifySignUpError(message);
          if c.AlreadyRegistered? {
            error := Some(Translated(EmailAlreadyRegistered));
            showSignInOption := true;
            return;
          }
          thrown := Some(c.message);
          assert effects + [Notify(FailureToast(c.message))] == before + [signUpCall, Notify(FailureToast(c.message))];
        case SignedUp(user) =>
          if Truthy(props.tenantSlug) && user.Some? {
            var associateCall := AssociateCall(user.value, props.tenantSlug.value, props.inviteToken);
            effects := effects + [associateCall];
            if associate.AssociateFailed? {
              effects := effects + [SignOutCall];
              thrown := Some(Translated(CannotJoinChurch(associate.reason)));
              ghost var failure := Notify(FailureToast(thrown.value));
              assert effects + [failure] == before + [signUpCall, associateCall, SignOutCall, failure];
              return;
            }
          }
          effects := effects + [Notify(SuccessToast(props.tenantSlug))];
          if props.hasOnSuccess {
            effects := effects + [OnSuccessCall];
          }
      }
    }
  }

  /** A form that was idle before a submission is idle after it. */
  method SubmitKeepsIdle(form: SignUpForm, signUp: SignUpResponse, associate: AssociateResponse)
    requires form.Idle()
    modifies form
    ensures form.Idle()
    ensures |form.effects| > |old(form.effects)|
  {
    form.HandleSignUp(signUp, associate);
  }
}
