/**
 * The authorization guard: _parse_bearer, get_role and require_editor.
 * The token map is the immutable mapping loaded at startup.
 */
module Auth {
  import opened Wrappers
  import opened Text
  import opened Http

  const MissingHeaderMessage: string := "Authorization header required"
  const InvalidHeaderMessage: string := "Invalid Authorization header. Expected: Bearer <token>"
  const UnknownTokenMessage: string := "Unknown token"
  const EditorRequiredMessage: string := "Editor role required"

  function MissingHeader(): HttpError { MessageError(401, MissingHeaderMessage) }
  function InvalidHeader(): HttpError { MessageError(401, InvalidHeaderMessage) }
  function UnknownToken(): HttpError { MessageError(403, UnknownTokenMessage) }
  function EditorRequired(): HttpError { MessageError(403, EditorRequiredMessage) }

  /** The scheme word is "bearer" in any mixture of cases. */
  predicate IsBearerScheme(w: string) {
    AsciiLower(w) == "bearer"
  }

  /** A stripped header of the accepted shape: the scheme word, one space, and the rest. */
  predicate BearerShaped(s: string) {
    |s| >= 7 && IsBearerScheme(s[..6]) && s[6] == ' '
  }

  lemma LowerCharLetter(c: char, l: char)
    requires 'a' <= l <= 'z' && LowerChar(c) == l
    ensures c == l || c as int == l as int - 32
    ensures !IsSpace(c)
  {
  }

  /**
   * The scheme is accepted exactly when each of its six letters is the
   * lower- or upper-case letter of "bearer"; in particular it holds no
   * whitespace.
   */
  lemma BearerSchemeCaseInsensitive(w: string)
    ensures IsBearerScheme(w) <==>
      |w| == 6 && forall i :: 0 <= i < 6 ==> w[i] == "bearer"[i] || w[i] == "BEARER"[i]
    ensures IsBearerScheme(w) ==> forall i :: 0 <= i < |w| ==> !IsSpace(w[i])
  {
    if IsBearerScheme(w) {
      forall i | 0 <= i < |w| ensures (w[i] == "bearer"[i] || w[i] == "BEARER"[i]) && !IsSpace(w[i]) {
        LowerCharLetter(w[i], "bearer"[i]);
      }
    }
  }

  /** Splitting at the first space finds the scheme exactly when the string is bearer-shaped. */
  lemma SplitFindsScheme(s: string)
    ensures var parts := SplitOnce(s, ' ');
      (|parts| == 2 && IsBearerScheme(parts[0])) <==> BearerShaped(s)
    ensures var parts := SplitOnce(s, ' ');
      BearerShaped(s) ==> parts[1] == s[7..]
  {
    var parts := SplitOnce(s, ' ');
    if |parts| == 2 && IsBearerScheme(parts[0]) {
      assert s[..6] == parts[0];
    }
    if BearerShaped(s) {
      BearerSchemeCaseInsensitive(s[..6]);
      assert |parts| == 2 by { assert s[6] in s; }
      var p := |parts[0]|;
      assert forall i :: 0 <= i < 6 ==> s[i] != ' ' by {
        forall i | 0 <= i < 6 ensures s[i] != ' ' {
          assert s[..6][i] == s[i];
        }
      }
      assert forall i :: 0 <= i < p ==> s[i] != ' ' by {
        forall i | 0 <= i < p ensures s[i] != ' ' {
          assert s[i] == parts[0][i];
        }
      }
      assert s[p] == ' ';
      assert p == 6;
      assert s[..6] == parts[0];
    }
  }

  /**
   * _parse_bearer: strip the header, split it at the first space, accept a
   * first part that lower-cases to "bearer" and return the second part,
   * which may itself contain spaces.
   */
  function ParseBearer(authorization: string): (r: Result<string, HttpError>)
    ensures r.Success? <==> BearerShaped(Strip(authorization))
    ensures r.Success? ==> r.value == Strip(authorization)[7..]
    ensures r.Failure? ==> r.error == InvalidHeader()
  {
    var parts := SplitOnce(Strip(authorization), ' ');
    SplitFindsScheme(Strip(authorization));
    if |parts| != 2 || !IsBearerScheme(parts[0]) then Failure(InvalidHeader()) else Success(parts[1])
  }

  /** An accepted token is never empty and never ends in whitespace. */
  lemma ParsedTokenShape(authorization: string)
    requires ParseBearer(authorization).Success?
    ensures var t := ParseBearer(authorization).value; |t| > 0 && !IsSpace(t[|t| - 1])
  {
    var s := Strip(authorization);
    assert s[6] == ' ';
    assert |s| != 7;
  }

  /**
   * A header written as scheme, one space and a token, with whitespace
   * around it, yields exactly that token, whatever spaces the token holds
   * inside or at its start.
   */
  lemma ParseBearerPadded(pad: string, scheme: string, token: string, pad': string)
    requires forall k :: 0 <= k < |pad| ==> IsSpace(pad[k])
    requires forall k :: 0 <= k < |pad'| ==> IsSpace(pad'[k])
    requires IsBearerScheme(scheme)
    requires token != [] && !IsSpace(token[|token| - 1])
    ensures ParseBearer(pad + scheme + " " + token + pad') == Success(token)
  {
    BearerSchemeCaseInsensitive(scheme);
    var core := scheme + " " + token;
    assert core[0] == scheme[0];
    assert core[|core| - 1] == token[|token| - 1];
    assert pad + scheme + " " + token + pad' == pad + core + pad';
    StripPadded(pad, core, pad');
    assert core[..6] == scheme;
    assert core[7..] == token;
  }

  /** get_role: the caller's role, or 401/403 with the guard's message. */
  function GetRole(authorization: Option<string>, tokens: map<string, string>): (r: Result<string, HttpError>)
    ensures authorization.None? ==> r == Failure(MissingHeader())
    ensures r.Success? <==>
      authorization.Some? && ParseBearer(authorization.value).Success? && ParseBearer(authorization.value).value in tokens
    ensures r.Success? ==> r.value == tokens[ParseBearer(authorization.value).value]
    ensures authorization.Some? && ParseBearer(authorization.value).Failure? ==> r == Failure(InvalidHeader())
    ensures authorization.Some? && ParseBearer(authorization.value).Success? && r.Failure? ==> r == Failure(UnknownToken())
  {
    match authorization
    case None => Failure(MissingHeader())
    case Some(header) =>
      match ParseBearer(header)
      case Failure(e) => Failure(e)
      case Success(token) =>
        if token in tokens then Success(tokens[token]) else Failure(UnknownToken())
  }

  /**
   * A header without the Authorization field is refused with 401 whatever
   * the token map holds; with an empty token map every request is refused.
   */
  lemma MissingHeaderAlwaysUnauthorized(tokens: map<string, string>, authorization: Option<string>)
    ensures GetRole(None, tokens) == Failure(MissingHeader())
    ensures GetRole(authorization, map[]).Failure?
  {
  }

  /** A role the guard grants is the one the token map gives some token. */
  lemma RoleComesFromTokenMap(authorization: Option<string>, tokens: map<string, string>)
    requires GetRole(authorization, tokens).Success?
    ensures exists t :: t in tokens && tokens[t] == GetRole(authorization, tokens).value
  {
    var t := ParseBearer(authorization.value).value;
    assert t in tokens && tokens[t] == GetRole(authorization, tokens).value;
  }

  /**
   * The guard's failures: 401 exactly for a missing or malformed header,
   * 403 ("Unknown token") for a well-formed header with an unknown token.
   */
  lemma GuardStatus(authorization: Option<string>, tokens: map<string, string>)
    requires GetRole(authorization, tokens).Failure?
    ensures var e := GetRole(authorization, tokens).error;
      (e.status == 401 <==> authorization.None? || ParseBearer(authorization.value).Failure?) &&
      (e.status == 403 <==> e == UnknownToken()) &&
      (e.status == 401 || e.status == 403)
  {
  }

  /**
   * End to end: a padded "Bearer <token>" header resolves to the token's
   * role, or to 403 "Unknown token" when the map does not hold the token.
   */
  lemma BearerHeaderRole(pad: string, scheme: string, token: string, pad': string, tokens: map<string, string>)
    requires forall k :: 0 <= k < |pad| ==> IsSpace(pad[k])
    requires forall k :: 0 <= k < |pad'| ==> IsSpace(pad'[k])
    requires IsBearerScheme(scheme)
    requires token != [] && !IsSpace(token[|token| - 1])
    ensures GetRole(Some(pad + scheme + " " + token + pad'), tokens) ==
      if token in tokens then Success(tokens[token]) else Failure(UnknownToken())
  {
    ParseBearerPadded(pad, scheme, token, pad');
  }

  /**
   * require_editor, composed with get_role as its dependency: the guard's
   * own failure first, then 403 unless the role is exactly "editor".
   */
  function RequireEditor(authorization: Option<string>, tokens: map<string, string>): (r: Result<string, HttpError>)
    ensures r.Success? <==> GetRole(authorization, tokens) == Success("editor")
    ensures r.Success? ==> r.value == "editor"
    ensures GetRole(authorization, tokens).Failure? ==> r == GetRole(authorization, tokens)
    ensures GetRole(authorization, tokens).Success? && r.Failure? ==> r == Failure(EditorRequired())
  {
    match GetRole(authorization, tokens)
    case Failure(e) => Failure(e)
    case Success(role) => if role != "editor" then Failure(EditorRequired()) else Success(role)
  }

  /**
   * A recognised token whose role is not "editor" (a viewer, or "Editor"
   * with a capital) is refused with 403 "Editor role required".
   */
  lemma NonEditorRoleRefused(authorization: Option<string>, tokens: map<string, string>)
    requires GetRole(authorization, tokens).Success? && GetRole(authorization, tokens).value != "editor"
    ensures RequireEditor(authorization, tokens) == Failure(EditorRequired())
  {
  }
}
