/** The email-domain allow-list that the login and forgot-password pages
    each define as `validateEmail`, and the two checks both handlers run on
    the email before sending any request. */
module EmailPolicy {
  import opened Common

  const AllowedDomains: seq<string> := ["@esolglobal.com", "@esol.com", "@otomashen.com"]

  /** `domains.some(domain => s.endsWith(domain))`. */
  function SomeEndsWith(s: string, domains: seq<string>): (r: bool)
    ensures r <==> exists i :: 0 <= i < |domains| && EndsWith(s, domains[i])
  {
    if domains == [] then false
    else EndsWith(s, domains[0]) || SomeEndsWith(s, domains[1..])
  }

  /** `validateEmail`: the lower-cased address ends with an allowed domain. */
  function ValidateEmail(email: string): (ok: bool)
    ensures ok <==> exists d :: d in AllowedDomains && EndsWith(Lower(email), d)
  {
    SomeEndsWith(Lower(email), AllowedDomains)
  }

  /** The test ignores case: two addresses that lower-case alike are both
      accepted or both rejected. */
  lemma ValidateEmailIgnoresCase(a: string, b: string)
    requires Lower(a) == Lower(b)
    ensures ValidateEmail(a) == ValidateEmail(b)
  {
  }

  /** An accepted address is at least as long as the shortest allowed
      domain, so it is never empty. */
  lemma AcceptedEmailIsNotEmpty(email: string)
    requires ValidateEmail(email)
    ensures |email| >= |"@esol.com"|
  {
    var d :| d in AllowedDomains && EndsWith(Lower(email), d);
  }

  /** Each allowed domain is accepted after any local part. */
  lemma AcceptsAllowedDomains()
    ensures ValidateEmail("a@esolglobal.com")
    ensures ValidateEmail("a@esol.com")
    ensures ValidateEmail("a@otomashen.com")
  {
    assert EndsWith(Lower("a@esolglobal.com"), AllowedDomains[0]);
    assert EndsWith(Lower("a@esol.com"), AllowedDomains[1]);
    assert EndsWith(Lower("a@otomashen.com"), AllowedDomains[2]);
  }

  /** An upper-case address of an allowed domain is accepted. */
  lemma AcceptsUpperCase()
    ensures ValidateEmail("A@ESOL.COM")
  {
    assert Lower("A@ESOL.COM") == "a@esol.com";
    assert EndsWith(Lower("A@ESOL.COM"), AllowedDomains[1]);
  }

  /** Another domain, and the empty address, are rejected. */
  lemma RejectsOtherDomains()
    ensures !ValidateEmail("a@example.com")
    ensures !ValidateEmail("")
  {
    var e := Lower("a@example.com");
    assert e == "a@example.com";
    assert e[|e| - 9..] == "ample.com" != AllowedDomains[1];
  }

  /** Why a handler stops before its request. */
  datatype EmailProblem = EmailRequired | InvalidEmailDomain

  /** The checks in front of every request, in order: an empty email first
      ("Email Required"), then the domain ("Invalid Email Domain"). */
  function EmailGate(email: string): (r: Option<EmailProblem>)
    ensures r == Some(EmailRequired) <==> email == ""
    ensures r == Some(InvalidEmailDomain) <==> email != "" && !ValidateEmail(email)
    ensures r == None <==> ValidateEmail(email)
  {
    if email == "" then
      assert !ValidateEmail(email) by {
        if ValidateEmail(email) { AcceptedEmailIsNotEmpty(email); }
      }
      Some(EmailRequired)
    else if !ValidateEmail(email) then Some(InvalidEmailDomain)
    else None
  }
}
