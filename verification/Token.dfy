/**
 * The one-time session token (proxy/internal/session/token.go).
 * The clock is a parameter: `now` is what time.Now() returned during the call.
 */
module SessionTokens {
  import opened Wrappers

  datatype TokenError = TokenMismatch | TokenAlreadyUsed | TokenExpired

  datatype TokenState = TokenState(value: string, expiry: int, consumed: bool)

  /** What Validate answers, without its side effect. */
  function Check(t: TokenState, value: string, now: int): Result<(), TokenError> {
    if t.value != value then Err(TokenMismatch)
    else if t.consumed then Err(TokenAlreadyUsed)
    else if now > t.expiry then Err(TokenExpired)
    else Ok(())
  }

  function AfterCheck(t: TokenState, value: string, now: int): TokenState {
    if Check(t, value, now).Ok? then t.(consumed := true) else t
  }

  class Token {
    const value: string
    const expiry: int
    var consumed: bool

    function State(): TokenState
      reads this
    {
      TokenState(value, expiry, consumed)
    }

    constructor (value: string, now: int, ttl: int)
      ensures State() == TokenState(value, now + ttl, false)
    {
      this.value, this.expiry, consumed := value, now + ttl, false;
    }

    method Validate(value: string, now: int) returns (r: Result<(), TokenError>)
      modifies this
      ensures r == Check(old(State()), value, now)
      ensures State() == AfterCheck(old(State()), value, now)
      ensures r.Ok? <==> !old(consumed) && value == this.value && now <= expiry
      // a wrong value is told nothing else, and a used token not whether it has expired
      ensures r == Err(TokenMismatch) <==> value != this.value
      ensures r == Err(TokenAlreadyUsed) <==> value == this.value && old(consumed)
    {
      if this.value != value {
        return Err(TokenMismatch);
      }
      if consumed {
        return Err(TokenAlreadyUsed);
      }
      if now > expiry {
        return Err(TokenExpired);
      }
      consumed := true;
      return Ok(());
    }

    method ValidateWithoutConsume(value: string, now: int) returns (r: Result<(), TokenError>)
      ensures r == Check(State(), value, now)
      ensures r.Ok? <==> !consumed && value == this.value && now <= expiry
      ensures r == Err(TokenMismatch) <==> value != this.value
      ensures r == Err(TokenAlreadyUsed) <==> value == this.value && consumed
    {
      if this.value != value {
        return Err(TokenMismatch);
      }
      if consumed {
        return Err(TokenAlreadyUsed);
      }
      if now > expiry {
        return Err(TokenExpired);
      }
      return Ok(());
    }
  }

  datatype Attempt = Attempt(value: string, now: int)

  predicate Matches(t: TokenState, a: Attempt) {
    a.value == t.value && a.now <= t.expiry
  }

  function Consume(t: TokenState, attempts: seq<Attempt>): TokenState {
    if attempts == [] then t
    else
      var a := attempts[|attempts| - 1];
      AfterCheck(Consume(t, attempts[..|attempts| - 1]), a.value, a.now)
  }

  predicate Passes(t: TokenState, attempts: seq<Attempt>, i: nat)
    requires i < |attempts|
  {
    Check(Consume(t, attempts[..i]), attempts[i].value, attempts[i].now).Ok?
  }

  /** A run of attempts leaves the token consumed exactly when some attempt fitted it. */
  lemma {:induction false} ConsumedIffFitted(t: TokenState, attempts: seq<Attempt>)
    ensures Consume(t, attempts).(consumed := t.consumed) == t
    ensures Consume(t, attempts).consumed <==> t.consumed || exists i | 0 <= i < |attempts| :: Matches(t, attempts[i])
  {
    if attempts != [] {
      var n := |attempts| - 1;
      ConsumedIffFitted(t, attempts[..n]);
      assert forall i | 0 <= i < n :: attempts[..n][i] == attempts[i];
      if exists i | 0 <= i < |attempts| :: Matches(t, attempts[i]) {
        var i :| 0 <= i < |attempts| && Matches(t, attempts[i]);
        assert i == n || Matches(t, attempts[..n][i]);
      }
    }
  }

  /** One-time use: of any attempts, in any order and at any times, exactly the first fitting one passes. */
  lemma OnlyFirstFitPasses(t: TokenState, attempts: seq<Attempt>, i: nat)
    requires i < |attempts| && !t.consumed
    ensures Passes(t, attempts, i) <==>
            Matches(t, attempts[i]) && forall j | 0 <= j < i :: !Matches(t, attempts[j])
  {
    ConsumedIffFitted(t, attempts[..i]);
    assert forall j | 0 <= j < i :: attempts[..i][j] == attempts[j];
  }
}
