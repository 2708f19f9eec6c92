/**
 * The username every screen derives from the signed-in user's e-mail:
 * Kotlin's `email.split("@")[0]`, the text before the first '@'. The
 * signed-in user itself comes from the auth provider and is an input.
 */
module Session {
  import opened DataModels

  /** `s.split("@")[0]`: the longest prefix of `s` without an '@'. */
  function EmailPrefix(s: string): (r: string)
    ensures |r| <= |s| && r == s[..|r|]
    ensures '@' !in r
    ensures |r| < |s| ==> s[|r|] == '@'
  {
    if s == [] || s[0] == '@' then []
    else [s[0]] + EmailPrefix(s[1..])
  }

  /** Without an '@' the whole address is the username. */
  lemma {:induction false} EmailPrefixWithoutAt(s: string)
    requires '@' !in s
    ensures EmailPrefix(s) == s
  {
    if s != [] {
      assert s[0] != '@' by { assert s[0] in s; }
      assert '@' !in s[1..] by {
        forall i | 0 <= i < |s[1..]| ensures s[1..][i] != '@' {
          assert s[1..][i] == s[i + 1] && s[i + 1] in s;
        }
      }
      EmailPrefixWithoutAt(s[1..]);
    }
  }

  /** Only the first '@' matters: whatever follows it is dropped. */
  lemma {:induction false} EmailPrefixOfAddress(user: string, domain: string)
    requires '@' !in user
    ensures EmailPrefix(user + "@" + domain) == user
  {
    if user == [] {
      assert (user + "@" + domain)[0] == '@';
    } else {
      assert user[0] != '@' by { assert user[0] in user; }
      assert '@' !in user[1..] by {
        forall i | 0 <= i < |user[1..]| ensures user[1..][i] != '@' {
          assert user[1..][i] == user[i + 1] && user[i + 1] in user;
        }
      }
      assert (user + "@" + domain)[1..] == user[1..] + "@" + domain;
      EmailPrefixOfAddress(user[1..], domain);
    }
  }

  /**
   * The profile, chat-list and settings screens: `(email ?: "").split("@")[0]`
   * (the chat screen's `email?.split("@")?.get(0) ?: ""` gives the same).
   */
  function CurrentUsername(email: Option<string>): (r: string)
    ensures email == None ==> r == ""
    ensures email.Some? ==> r == EmailPrefix(email.value)
  {
    EmailPrefix(if email.Some? then email.value else "")
  }

  /** The comment author: `(email ?: "Anonim").split("@")[0]`. */
  const Anonymous := "Anonim"

  function CommentAuthor(email: Option<string>): (r: string)
    ensures email == None ==> r == Anonymous
    ensures email.Some? ==> r == EmailPrefix(email.value)
  {
    EmailPrefixWithoutAt(Anonymous);
    EmailPrefix(if email.Some? then email.value else Anonymous)
  }

  /** The user id the profile screen inserts with: `currentUser?.id ?: ""`. */
  function CurrentUserId(id: Option<string>): (r: string)
    ensures id == None ==> r == ""
    ensures id.Some? ==> r == id.value
  {
    if id.Some? then id.value else ""
  }
}
