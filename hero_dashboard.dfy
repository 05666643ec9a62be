/**
 * The greeting on the creator's dashboard: the name taken from the signed-in
 * user's e-mail address.
 */
module HeroDashboard {
  import opened Wrappers
  import opened JsText

  /** The part of an address before its first '@', as `split('@')[0]` gives it. */
  function LocalPart(email: string): (l: string)
    ensures |l| <= |email| && l == email[..|l|] && '@' !in l
    ensures |l| < |email| ==> email[|l|] == '@'
  {
    SplitHead(email, '@');
    Split(email, '@')[0]
  }

  /** `charAt(0).toUpperCase() + slice(1)` */
  function Capitalize(s: string): (r: string)
    ensures |r| == |s|
    ensures s != [] ==> r[0] == UpperChar(s[0]) && r[1..] == s[1..]
  {
    if s == [] then "" else [UpperChar(s[0])] + s[1..]
  }

  /**
   * `getUserName()`: "User" without an e-mail address; otherwise the part
   * of the address before the first '@', with its first letter capitalised.
   */
  function GetUserName(email: Option<string>): (name: string)
    ensures email.None? || email.value == "" ==> name == "User"
    ensures email.Some? && email.value != "" ==>
              |name| == |LocalPart(email.value)| && '@' !in name &&
              (name != "" ==> name[0] == UpperChar(email.value[0]) && name[1..] == email.value[1..|name|])
  {
    if email.Some? && email.value != "" then
      var l := LocalPart(email.value);
      var name := Capitalize(l);
      assert '@' !in name by {
        if l != [] {
          assert name == [UpperChar(l[0])] + l[1..];
        }
      }
      name
    else "User"
  }

  /**
   * The name is empty exactly when the address starts with '@', and it is
   * the whole address, capitalised, when the address has no '@'.
   */
  lemma NameFromAddress(email: string)
    requires email != ""
    ensures GetUserName(Some(email)) == "" <==> email[0] == '@'
    ensures '@' !in email ==> GetUserName(Some(email)) == Capitalize(email)
  {
    var l := LocalPart(email);
    if email[0] == '@' {
      assert |l| == 0;
    }
    if '@' !in email {
      assert |l| == |email|;
    }
  }

  /** The name of `local@domain` is `local` capitalised, whatever the domain. */
  lemma NameOfAddress(local: string, domain: string)
    requires '@' !in local
    ensures GetUserName(Some(local + ['@'] + domain)) == Capitalize(local)
  {
    SplitAfterHead(local, '@', domain);
  }
}
