/**
 * `generateTokenForUser`: draw candidate tokens until one is not in the
 * token table, at most `MaxAttempts` of them, then insert it as a valid
 * token of the user.  The random generator is the parameter `draw`, whose
 * value at `k` is the candidate drawn on attempt `k`.
 */
module TokenIssuer {
  import opened Http
  import opened Store

  const MaxAttempts: nat := 20
  const TooManyAttempts := "Túl sok próbálkozás a token generálás során"

  /** The candidate `generateUniqueToken(attempt)` settles on: the first one,
      from `attempt` on, that no row (valid or not) holds; `None` when every
      remaining attempt collides. */
  function FirstFresh(tokens: map<Token, TokenRow>, draw: nat -> Token, attempt: nat): (r: Option<Token>)
    ensures r.Some? ==> r.value !in tokens
    decreases MaxAttempts - attempt
  {
    if attempt >= MaxAttempts then None
    else if draw(attempt) in tokens then FirstFresh(tokens, draw, attempt + 1)
    else Some(draw(attempt))
  }

  /** The token chosen is the candidate of the first attempt that does not
      collide, every earlier attempt colliding; there is none exactly when
      all remaining attempts collide. */
  lemma {:induction false} FirstFreshIsFirst(tokens: map<Token, TokenRow>, draw: nat -> Token, attempt: nat)
    ensures FirstFresh(tokens, draw, attempt).Some? ==>
      exists k :: attempt <= k < MaxAttempts && draw(k) == FirstFresh(tokens, draw, attempt).value &&
                  forall j :: attempt <= j < k ==> draw(j) in tokens
    ensures FirstFresh(tokens, draw, attempt).None? <==> forall k :: attempt <= k < MaxAttempts ==> draw(k) in tokens
    decreases MaxAttempts - attempt
  {
    if attempt < MaxAttempts && draw(attempt) in tokens {
      FirstFreshIsFirst(tokens, draw, attempt + 1);
      var r := FirstFresh(tokens, draw, attempt);
      if r.Some? {
        var k :| attempt + 1 <= k < MaxAttempts && draw(k) == r.value &&
                 forall j :: attempt + 1 <= j < k ==> draw(j) in tokens;
        assert attempt <= k < MaxAttempts && draw(k) == r.value;
      }
    }
  }

  /** Issues a token for `userId`: on success exactly one row, a valid one
      for that user holding a token no row held before, is added and it is
      the token returned; after `MaxAttempts` collisions nothing is added and
      `None` stands for the error thrown with `TooManyAttempts`. */
  method GenerateTokenForUser(db: Db, userId: UserId, draw: nat -> Token) returns (r: Option<Token>)
    requires TokensOwned(db.tokens, db.users) && userId in db.users
    modifies db`tokens
    ensures TokensOwned(db.tokens, db.users)
    ensures r == FirstFresh(old(db.tokens), draw, 0)
    ensures r.Some? ==> r.value !in old(db.tokens) && db.tokens == old(db.tokens)[r.value := TokenRow(userId, true)]
    ensures r.None? ==> db.tokens == old(db.tokens)
  {
    var attempt: nat := 0;
    while true
      invariant attempt <= MaxAttempts
      invariant db.tokens == old(db.tokens)
      invariant FirstFresh(db.tokens, draw, attempt) == FirstFresh(db.tokens, draw, 0)
      decreases MaxAttempts - attempt
    {
      if attempt >= MaxAttempts {
        return None;
      }
      var candidate := draw(attempt);
      if candidate !in db.tokens {
        db.tokens := db.tokens[candidate := TokenRow(userId, true)];
        return Some(candidate);
      }
      attempt := attempt + 1;
    }
  }
}
