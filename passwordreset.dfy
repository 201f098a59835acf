/** The password-reset endpoints: an in-memory table of reset tokens, filled by the
    "forgot password" request and consumed by the single-use, expiry-checked reset.

    Time is an integer number of seconds; the fresh token, the outcome of sending the email
    and the hash of the new password are inputs, since they come from randomness, the mail
    server and the hashing library. */
module PasswordReset {

  /** A token lives for 15 minutes. */
  const TokenLifetime: int := 15 * 60

  /** An entry of `password_reset_tokens`: `{email, expires_at}`. */
  datatype ResetEntry = ResetEntry(email: string, expiresAt: int)

  /** The columns of a user row this router reads or writes. */
  datatype User = User(email: string, fullName: string, hashedPassword: string, role: string)

  /** An endpoint's answer: a 2xx body carrying a message, or an `HTTPException`. */
  datatype Reply = Message(text: string) | HttpError(status: int, detail: string)

  const UnknownEmailMessage: string := "If the email exists, a reset link has been sent."
  const SentMessage: string := "A reset token has been sent to your email."
  const SendFailedDetail: string := "Failed to send email. Check SMTP settings."
  const InvalidTokenDetail: string := "Invalid or expired reset token"
  const UserNotFoundDetail: string := "User not found"
  const ResetDoneMessage: string := "Password reset successful"

  /** A token is accepted up to and including its expiry instant: only `now > expires_at`
      rejects it. */
  predicate Usable(tokens: map<string, ResetEntry>, token: string, now: int)
  {
    token in tokens && now <= tokens[token].expiresAt
  }

  /** The token table together with the user table it refers to. */
  class Service {
    var tokens: map<string, ResetEntry>
    var users: map<string, User>

    /** The user table is keyed by its unique email column. */
    ghost predicate Valid()
      reads this
    {
      forall e :: e in users ==> users[e].email == e
    }

    constructor (users0: map<string, User>)
      requires forall e :: e in users0 ==> users0[e].email == e
      ensures Valid() && tokens == map[] && users == users0
    {
      tokens := map[];
      users := users0;
    }

    /** `request_password_reset`.  An unknown email gets the same neutral message and leaves
        the table alone.  A known one records `token` for that user's email, expiring 15
        minutes from `now`, and then reports whether the email could be sent: a failed
        send is a 500, but the token stays recorded. */
    method RequestReset(email: string, now: int, token: string, delivered: bool) returns (r: Reply)
      requires Valid()
      modifies this
      ensures Valid() && users == old(users)
      ensures email !in users ==> tokens == old(tokens) && r == Message(UnknownEmailMessage)
      ensures email in users ==>
        tokens == old(tokens)[token := ResetEntry(users[email].email, now + TokenLifetime)]
      ensures email in users && delivered ==> r == Message(SentMessage)
      ensures email in users && !delivered ==> r == HttpError(500, SendFailedDetail)
    {
      if email !in users {
        return Message(UnknownEmailMessage);
      }
      var user := users[email];
      tokens := tokens[token := ResetEntry(user.email, now + TokenLifetime)];
      if !delivered {
        return HttpError(500, SendFailedDetail);
      }
      r := Message(SentMessage);
    }

    /** `reset_password`.  A missing or expired token is a 400, and an expired one is
        dropped.  A live token whose user has gone is a 404 and stays in the table.
        Otherwise only that user's hash is replaced and the token is consumed; every other
        token and user is left as it was. */
    method ResetPassword(token: string, now: int, newHash: string) returns (r: Reply)
      requires Valid()
      modifies this
      ensures Valid()
      ensures !Usable(old(tokens), token, now) ==>
        r == HttpError(400, InvalidTokenDetail) && tokens == old(tokens) - {token} && users == old(users)
      ensures Usable(old(tokens), token, now) && old(tokens)[token].email !in old(users) ==>
        r == HttpError(404, UserNotFoundDetail) && tokens == old(tokens) && users == old(users)
      ensures Usable(old(tokens), token, now) && old(tokens)[token].email in old(users) ==>
        var e := old(tokens)[token].email;
        && r == Message(ResetDoneMessage)
        && tokens == old(tokens) - {token}
        && users == old(users)[e := old(users)[e].(hashedPassword := newHash)]
    {
      if token !in tokens || now > tokens[token].expiresAt {
        tokens := tokens - {token};
        return HttpError(400, InvalidTokenDetail);
      }
      var e := tokens[token].email;
      if e !in users {
        return HttpError(404, UserNotFoundDetail);
      }
      users := users[e := users[e].(hashedPassword := newHash)];
      tokens := tokens - {token};
      r := Message(ResetDoneMessage);
    }
  }

  /** A token is good for one reset: after a successful reset, presenting it again fails
      with 400, whatever the time. */
  method ResetIsSingleUse(s: Service, token: string, now: int, later: int, h1: string, h2: string)
      returns (first: Reply, second: Reply)
    requires s.Valid()
    modifies s
    ensures first == Message(ResetDoneMessage) ==> second == HttpError(400, InvalidTokenDetail)
  {
    first := s.ResetPassword(token, now, h1);
    second := s.ResetPassword(token, later, h2);
  }

  /** Issuing a token and redeeming it at any instant up to its expiry resets the password
      of the user who asked. */
  method IssueThenRedeem(s: Service, email: string, now: int, wait: int, token: string, h: string)
      returns (sent: Reply, reset: Reply)
    requires s.Valid() && email in s.users
    requires 0 <= wait <= TokenLifetime
    modifies s
    ensures reset == Message(ResetDoneMessage)
    ensures email in s.users && s.users[email].hashedPassword == h
    ensures token !in s.tokens
  {
    sent := s.RequestReset(email, now, token, true);
    reset := s.ResetPassword(token, now + wait, h);
  }
}
