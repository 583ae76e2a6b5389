/** The authenticated user: the `aal` claim of its JWT, whether MFA was
    used, and the token attached to a user for the rest of a request. */
module UserModel {
  import opened Common

  /** The `aal` claim as it arrives: absent, a string, or a JSON number. */
  datatype AalClaim = Absent | AalText(s: string) | AalNumber(n: int)

  datatype Jwt = Jwt(sub: string, aal: int)

  /** `s.removeprefix(prefix)`. */
  function RemovePrefix(s: string, prefix: string): (r: string)
    ensures StartsWith(s, prefix) ==> s == prefix + r
    ensures !StartsWith(s, prefix) ==> r == s
  {
    if StartsWith(s, prefix) then s[|prefix|..] else s
  }

  /** The `aal` field: 1 when absent; a string loses its "aal" prefix and
      must then be an integer from 1 to 3; `removeprefix` on a number raises
      AttributeError. */
  function ParseAal(claim: AalClaim): (r: Result<int>)
    ensures claim == Absent ==> r == Ok(1)
    ensures r.Ok? ==> 1 <= r.value <= 3
    ensures claim.AalNumber? ==> r.Err? && r.failure == Raised("AttributeError", "removeprefix")
  {
    match claim
    case Absent => Ok(1)
    case AalNumber(_) => Err(Raised("AttributeError", "removeprefix"))
    case AalText(s) =>
      var n := ParseInt(RemovePrefix(s, "aal"));
      if n.None? then Err(Raised("ValidationError", "Input should be a valid integer"))
      else if n.value < 1 then Err(Raised("ValidationError", "Input should be greater than or equal to 1"))
      else if n.value > 3 then Err(Raised("ValidationError", "Input should be less than or equal to 3"))
      else Ok(n.value)
  }

  /** "aal" followed by a level from 1 to 3 parses to that level, as does the
      bare level. */
  lemma AalLevels(level: int)
    requires 1 <= level <= 3
    ensures ParseAal(AalText("aal" + IntToString(level))) == Ok(level)
    ensures ParseAal(AalText(IntToString(level))) == Ok(level)
  {
    IntRoundTrip(level);
    assert StartsWith("aal" + IntToString(level), "aal");
    assert ("aal" + IntToString(level))[3..] == IntToString(level);
    assert !StartsWith(IntToString(level), "aal") by {
      assert IntToString(level) == [DigitChar(level)];
    }
  }

  /** Levels outside 1 to 3 are rejected. */
  lemma AalOutOfRange(level: int)
    requires level < 1 || level > 3
    ensures ParseAal(AalText("aal" + IntToString(level))).Err?
  {
    IntRoundTrip(level);
    assert ("aal" + IntToString(level))[3..] == IntToString(level);
  }

  /** `JWT.mfa`. */
  predicate Mfa(token: Jwt) {
    token.aal >= 2
  }

  /** MFA holds exactly for the levels "aal2" and "aal3". */
  lemma MfaLevels(sub: string, claim: AalClaim)
    requires ParseAal(claim).Ok?
    ensures Mfa(Jwt(sub, ParseAal(claim).value)) <==> ParseAal(claim).value in {2, 3}
  {
  }

  /** A user with the private token attribute. */
  class User {
    const id: string
    var token: Option<Jwt>

    constructor (id: string)
      ensures this.id == id && token == None
    {
      this.id := id;
      token := None;
    }

    /** The `token` getter: ValueError until a token is set. */
    function Token(): (r: Result<Jwt>)
      reads this
      ensures token.None? ==> r == Err(Raised("ValueError", "User has no token"))
      ensures token.Some? ==> r == Ok(token.value)
    {
      if token.None? then Err(Raised("ValueError", "User has no token")) else Ok(token.value)
    }

    /** The `token` setter. */
    method SetToken(t: Jwt)
      modifies this
      ensures token == Some(t)
      ensures Token() == Ok(t)
    {
      token := Some(t);
    }
  }
}
