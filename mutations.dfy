/** The sign-up and sign-in mutations (src/lib/auth/remotes/mutations.logic.ts).
    The injected collaborators become the state of one object: the account
    store that the lookup reads and that issuance appends to, and logs of the
    outward calls (store lookups, `auth.api.signUpEmail`, `auth.api.signInEmail`)
    and of the issues reported through `invalid.email`. A collaborator's
    failure is an input to the call, and it propagates unchanged. */
module AuthMutations {
  import opened Wrappers
  import opened AuthSchemas

  /** An account record as far as this core sees it. */
  datatype Account = Account(name: string, email: string)

  /** The body handed to credential issuance; it has no `confirmPassword`. */
  datatype IssuanceBody = IssuanceBody(name: string, email: string, password: string)

  /** An error raised by the store or the provider, never interpreted here. */
  datatype Fault = Fault(detail: string)

  /** How a call ends: normally, or with the collaborator's error passing through. */
  datatype Completion = Done | Threw(fault: Fault)

  const EmailTaken := "An account with this email already exists"

  /** The records whose email is exactly `email`, as
      `db.select().from(user).where(eq(user.email, email))` returns them. */
  function Lookup(accounts: seq<Account>, email: string): (r: seq<Account>)
    ensures |r| <= |accounts|
    ensures forall k :: 0 <= k < |r| ==> r[k].email == email
    ensures forall k :: 0 <= k < |accounts| && accounts[k].email == email ==> accounts[k] in r
    ensures r == [] <==> forall k :: 0 <= k < |accounts| ==> accounts[k].email != email
  {
    if accounts == [] then []
    else (if accounts[0].email == email then [accounts[0]] else []) + Lookup(accounts[1..], email)
  }

  /** The store invariant: no two accounts share an email. */
  predicate UniqueEmails(accounts: seq<Account>) {
    forall i, j :: 0 <= i < j < |accounts| ==> accounts[i].email != accounts[j].email
  }

  /** The issuance body built from a sign-up command: name, email and password only. */
  function IssuanceOf(data: SignUpData): IssuanceBody {
    IssuanceBody(data.name, data.email, data.password)
  }

  /** The account the provider creates on a successful issuance. */
  function Created(body: IssuanceBody): Account {
    Account(body.name, body.email)
  }

  /** The store after a sign-up on which neither the store nor the provider fails. */
  function AfterSignUp(accounts: seq<Account>, data: SignUpData): seq<Account> {
    if Lookup(accounts, data.email) == [] then accounts + [Created(IssuanceOf(data))] else accounts
  }

  /** The store after a sequence of such sign-ups, one after the other. */
  function AfterSignUps(accounts: seq<Account>, datas: seq<SignUpData>): seq<Account>
    decreases |datas|
  {
    if datas == [] then accounts else AfterSignUps(AfterSignUp(accounts, datas[0]), datas[1..])
  }

  /** A sign-up keeps the emails of the store unique. */
  lemma AfterSignUpUnique(accounts: seq<Account>, data: SignUpData)
    requires UniqueEmails(accounts)
    ensures UniqueEmails(AfterSignUp(accounts, data))
  {
  }

  /** Any run of sign-ups keeps the emails of the store unique. */
  lemma {:induction false} AfterSignUpsUnique(accounts: seq<Account>, datas: seq<SignUpData>)
    requires UniqueEmails(accounts)
    ensures UniqueEmails(AfterSignUps(accounts, datas))
    decreases |datas|
  {
    if datas != [] {
      AfterSignUpUnique(accounts, datas[0]);
      AfterSignUpsUnique(AfterSignUp(accounts, datas[0]), datas[1..]);
    }
  }

  /** After a sign-up, its email is found by the lookup. */
  lemma AfterSignUpFinds(accounts: seq<Account>, data: SignUpData)
    ensures Lookup(AfterSignUp(accounts, data), data.email) != []
  {
    if Lookup(accounts, data.email) == [] {
      assert AfterSignUp(accounts, data)[|accounts|].email == data.email;
    }
  }

  /** A sign-up removes no account: an email found before is found after. */
  lemma AfterSignUpKeeps(accounts: seq<Account>, data: SignUpData, email: string)
    requires Lookup(accounts, email) != []
    ensures Lookup(AfterSignUp(accounts, data), email) != []
  {
    var k :| 0 <= k < |accounts| && accounts[k].email == email;
    assert AfterSignUp(accounts, data)[k] == accounts[k];
  }

  /** After any run of sign-ups, every email that was signed up is in the store. */
  lemma {:induction false} AfterSignUpsCovers(accounts: seq<Account>, datas: seq<SignUpData>, k: nat)
    requires k < |datas|
    ensures Lookup(AfterSignUps(accounts, datas), datas[k].email) != []
    decreases |datas|
  {
    if k == 0 {
      AfterSignUpFinds(accounts, datas[0]);
      AfterSignUpsKeeps(AfterSignUp(accounts, datas[0]), datas[1..], datas[0].email);
    } else {
      AfterSignUpsCovers(AfterSignUp(accounts, datas[0]), datas[1..], k - 1);
    }
  }

  /** Sign-ups never remove an account: an email found before is found after. */
  lemma {:induction false} AfterSignUpsKeeps(accounts: seq<Account>, datas: seq<SignUpData>, email: string)
    requires Lookup(accounts, email) != []
    ensures Lookup(AfterSignUps(accounts, datas), email) != []
    decreases |datas|
  {
    if datas != [] {
      AfterSignUpKeeps(accounts, datas[0], email);
      AfterSignUpsKeeps(AfterSignUp(accounts, datas[0]), datas[1..], email);
    }
  }

  /** Signing up the same email twice creates the account once; the second
      sign-up finds it and leaves the store as it was. */
  lemma SameEmailTwice(accounts: seq<Account>, first: SignUpData, second: SignUpData)
    requires first.email == second.email
    requires Lookup(accounts, first.email) == []
    ensures AfterSignUp(accounts, first) == accounts + [Account(first.name, first.email)]
    ensures Lookup(AfterSignUp(accounts, first), second.email) != []
    ensures AfterSignUp(AfterSignUp(accounts, first), second) == AfterSignUp(accounts, first)
  {
    var once := AfterSignUp(accounts, first);
    assert once[|accounts|].email == second.email;
  }

  /** The collaborators of the two mutations, and what has been asked of them. */
  class AuthBoundary {
    /** The account store queried by the lookup, to which issuance appends. */
    var accounts: seq<Account>
    /** The email of every store lookup, in order. */
    var lookups: seq<string>
    /** The body of every `auth.api.signUpEmail` call, in order. */
    var issuances: seq<IssuanceBody>
    /** The body of every `auth.api.signInEmail` call, in order. */
    var verifications: seq<SignInData>
    /** Every issue reported through `invalid.email`, in order. */
    var reported: seq<Issue>

    /** Collaborators over a given store, with nothing asked of them yet. */
    constructor (store: seq<Account>)
      ensures accounts == store
      ensures lookups == [] && issuances == [] && verifications == [] && reported == []
    {
      accounts := store;
      lookups, issuances, verifications, reported := [], [], [], [];
    }

    /** `signUpLogic`: look the command's email up; if an account exists, report
        the conflict on the email field and stop; otherwise issue a credential
        for `{name, email, password}`. `lookupFault` and `issueFault` are the
        errors the store and the provider raise on this call, if any. */
    method SignUp(data: SignUpData, lookupFault: Option<Fault>, issueFault: Option<Fault>) returns (c: Completion)
      modifies this
      ensures lookups == old(lookups) + [data.email]
      ensures verifications == old(verifications)
      // the store fails: its error propagates before anything else happens
      ensures lookupFault.Some? ==>
        c == Threw(lookupFault.value) && accounts == old(accounts)
        && issuances == old(issuances) && reported == old(reported)
      // an account with this email exists: the conflict is reported, nothing is issued
      ensures lookupFault.None? && Lookup(old(accounts), data.email) != [] ==>
        c == Done && reported == old(reported) + [Issue(Email, EmailTaken)]
        && issuances == old(issuances) && accounts == old(accounts)
      // no such account: one issuance call with name, email and password, no issue
      ensures lookupFault.None? && Lookup(old(accounts), data.email) == [] ==>
        issuances == old(issuances) + [IssuanceBody(data.name, data.email, data.password)]
        && reported == old(reported)
        && (issueFault.None? ==> c == Done && accounts == old(accounts) + [Account(data.name, data.email)])
        && (issueFault.Some? ==> c == Threw(issueFault.value) && accounts == old(accounts))
      // exactly one of "conflict reported" and "issuance invoked"
      ensures lookupFault.None? ==>
        (|reported| == |old(reported)| + 1) != (|issuances| == |old(issuances)| + 1)
      ensures lookupFault.None? && issueFault.None? ==> accounts == AfterSignUp(old(accounts), data)
      ensures UniqueEmails(old(accounts)) ==> UniqueEmails(accounts)
    {
      lookups := lookups + [data.email];
      if lookupFault.Some? {
        return Threw(lookupFault.value);
      }
      var existing := Lookup(accounts, data.email);
      if |existing| > 0 {
        reported := reported + [Issue(Email, EmailTaken)];
        return Done;
      }
      var body := IssuanceOf(data);
      issuances := issuances + [body];
      if issueFault.Some? {
        return Threw(issueFault.value);
      }
      accounts := accounts + [Created(body)];
      c := Done;
    }

    /** `signInLogic`: hand the validated command to verification as it is.
        `verifyFault` is the provider's error on this call, if any; whether the
        email is unknown or the password wrong is not looked into. */
    method SignIn(data: SignInData, verifyFault: Option<Fault>) returns (c: Completion)
      modifies this
      ensures verifications == old(verifications) + [data]
      ensures c == if verifyFault.Some? then Threw(verifyFault.value) else Done
      ensures accounts == old(accounts) && lookups == old(lookups)
      ensures issuances == old(issuances) && reported == old(reported)
    {
      verifications := verifications + [data];
      if verifyFault.Some? {
        return Threw(verifyFault.value);
      }
      c := Done;
    }
  }

  /** Two sign-ups with one email in sequence, neither collaborator failing:
      the first issues a credential, the second reports the conflict and
      issues nothing. */
  method SignUpTwice(b: AuthBoundary, first: SignUpData, second: SignUpData)
    returns (c1: Completion, c2: Completion)
    requires first.email == second.email
    requires Lookup(b.accounts, first.email) == []
    modifies b
    ensures c1 == Done && c2 == Done
    ensures b.issuances == old(b.issuances) + [IssuanceOf(first)]
    ensures b.reported == old(b.reported) + [Issue(Email, EmailTaken)]
    ensures b.accounts == old(b.accounts) + [Account(first.name, first.email)]
  {
    c1 := b.SignUp(first, None, None);
    SameEmailTwice(old(b.accounts), first, second);
    c2 := b.SignUp(second, None, None);
  }
}
