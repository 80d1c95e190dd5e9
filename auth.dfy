/** The authentication provider: the startup check of a stored JSON Web Token
    (RFC 7519), login, signup and logout. Only the choice of the token's
    payload segment and its base64url-to-base64 character mapping (sections 5
    and 4 of RFC 4648) are modelled; the decoding itself is a parameter. */
module Auth {
  import opened Wrappers

  /** `token.split(sep)`: the parts between separators, at least one. */
  function Split(s: string, sep: char): (parts: seq<string>)
    ensures |parts| >= 1
    ensures forall i :: 0 <= i < |parts| ==> sep !in parts[i]
  {
    if s == [] then [""]
    else if s[0] == sep then [""] + Split(s[1..], sep)
    else
      var rest := Split(s[1..], sep);
      [[s[0]] + rest[0]] + rest[1..]
  }

  /** The parts glued back together with the separator. */
  function Join(parts: seq<string>, sep: char): string
    requires |parts| >= 1
  {
    if |parts| == 1 then parts[0] else parts[0] + [sep] + Join(parts[1..], sep)
  }

  /** Splitting loses nothing: joining the parts gives the string back. */
  lemma {:induction false} JoinSplit(s: string, sep: char)
    ensures Join(Split(s, sep), sep) == s
  {
    if s != [] {
      var rest := Split(s[1..], sep);
      JoinSplit(s[1..], sep);
      if s[0] == sep {
        JoinAfterEmpty(rest, sep);
      } else {
        JoinExtendFirst(s[0], rest, sep);
      }
      assert s == [s[0]] + s[1..];
    }
  }

  lemma JoinAfterEmpty(rest: seq<string>, sep: char)
    requires |rest| >= 1
    ensures Join([""] + rest, sep) == [sep] + Join(rest, sep)
  {
    assert ([""] + rest)[1..] == rest;
  }

  lemma JoinExtendFirst(c: char, rest: seq<string>, sep: char)
    requires |rest| >= 1
    ensures Join([[c] + rest[0]] + rest[1..], sep) == [c] + Join(rest, sep)
  {
    var parts := [[c] + rest[0]] + rest[1..];
    if |rest| > 1 {
      assert parts[1..] == rest[1..];
    }
  }

  /** A string without the separator is a single part. */
  lemma {:induction false} SplitWithoutSeparator(s: string, sep: char)
    requires sep !in s
    ensures Split(s, sep) == [s]
  {
    if s != [] {
      SplitWithoutSeparator(s[1..], sep);
      assert s == [s[0]] + s[1..];
    }
  }

  /** A leading separator-free part splits off as the first part. */
  lemma {:induction false} SplitAfterPart(h: string, sep: char, rest: string)
    requires sep !in h
    ensures Split(h + [sep] + rest, sep) == [h] + Split(rest, sep)
  {
    if h == [] {
      assert h + [sep] + rest == [sep] + rest;
      assert ([sep] + rest)[1..] == rest;
    } else {
      SplitAfterPart(h[1..], sep, rest);
      assert (h + [sep] + rest)[1..] == h[1..] + [sep] + rest;
      assert h == [h[0]] + h[1..];
    }
  }

  /** `token.split('.')[1] || token`: the second dot-separated part, or the
      whole token when there is no second part or it is empty. */
  function PayloadSegment(token: string): (seg: string)
    ensures seg == token || ('.' !in seg && seg != "")
  {
    var parts := Split(token, '.');
    if |parts| > 1 && parts[1] != "" then parts[1] else token
  }

  /** In a compact token header.payload.signature the payload is selected;
      a token without a dot is taken whole. */
  lemma {:induction false} PayloadOfCompactToken(header: string, payload: string, signature: string)
    requires '.' !in header && '.' !in payload && payload != ""
    ensures PayloadSegment(header + "." + payload + "." + signature) == payload
    ensures PayloadSegment(payload) == payload
  {
    var token := header + "." + payload + "." + signature;
    assert token == header + ['.'] + (payload + ['.'] + signature);
    SplitAfterPart(header, '.', payload + ['.'] + signature);
    SplitAfterPart(payload, '.', signature);
    SplitWithoutSeparator(payload, '.');
  }

  /** The base64url alphabet of section 5 of RFC 4648, with padding. */
  predicate IsBase64UrlChar(c: char)
  {
    'A' <= c <= 'Z' || 'a' <= c <= 'z' || '0' <= c <= '9' || c == '-' || c == '_' || c == '='
  }

  /** The base64 alphabet of section 4 of RFC 4648, with padding. */
  predicate IsBase64Char(c: char)
  {
    'A' <= c <= 'Z' || 'a' <= c <= 'z' || '0' <= c <= '9' || c == '+' || c == '/' || c == '='
  }

  function UrlCharToStd(c: char): char
  {
    if c == '-' then '+' else if c == '_' then '/' else c
  }

  /** `.replace(/-/g, '+').replace(/_/g, '/')` */
  function Base64UrlToBase64(s: string): (r: string)
    ensures |r| == |s|
    ensures forall i :: 0 <= i < |s| ==> r[i] == UrlCharToStd(s[i])
  {
    seq(|s|, i requires 0 <= i < |s| => UrlCharToStd(s[i]))
  }

  /** The reverse mapping, from base64 to base64url. */
  function Base64ToBase64Url(s: string): (r: string)
    ensures |r| == |s|
    ensures forall i :: 0 <= i < |s| ==> r[i] == (if s[i] == '+' then '-' else if s[i] == '/' then '_' else s[i])
  {
    seq(|s|, i requires 0 <= i < |s| => if s[i] == '+' then '-' else if s[i] == '/' then '_' else s[i])
  }

  /** Base64url text becomes base64 text with the same characters apart from
      the two that differ, and mapping back restores it. */
  lemma {:induction false} UrlAlphabetToStandard(s: string)
    requires forall i :: 0 <= i < |s| ==> IsBase64UrlChar(s[i])
    ensures forall i :: 0 <= i < |s| ==> IsBase64Char(Base64UrlToBase64(s)[i])
    ensures '-' !in Base64UrlToBase64(s) && '_' !in Base64UrlToBase64(s)
    ensures Base64ToBase64Url(Base64UrlToBase64(s)) == s
  {
    var r := Base64UrlToBase64(s);
    assert forall i :: 0 <= i < |s| ==> r[i] != '-' && r[i] != '_';
    var back := Base64ToBase64Url(r);
    assert forall i :: 0 <= i < |s| ==> back[i] == s[i];
  }

  /** The claims the provider reads from a payload; "" stands for a missing
      or falsy claim. */
  datatype User = User(name: string, email: string)

  /** `decodeJwt(token)`: the browser decoding of the selected, remapped
      segment, given here as `decode`; `None` is the `null` of a failed decode. */
  function DecodeJwt(token: string, decode: string -> Option<User>): Option<User>
  {
    decode(Base64UrlToBase64(PayloadSegment(token)))
  }

  /** The startup check accepts a decoded payload with a name and an email. */
  predicate AcceptedUser(decoded: Option<User>)
  {
    decoded.Some? && decoded.value.name != "" && decoded.value.email != ""
  }

  /** What the login and signup services return. */
  datatype AuthData = AuthData(token: string, user: Option<User>)

  /** The fallback error of both login and signup. */
  const LoginFailed: string := "Login failed"

  /** The provider's state, with the browser's stored `authToken`. */
  class AuthSession {
    var user: Option<User>
    var isAuthenticated: bool
    var isLoading: bool
    var error: Option<string>
    var storedToken: Option<string>

    constructor (storedToken: Option<string>)
      ensures user == None && !isAuthenticated && isLoading && error == None
      ensures this.storedToken == storedToken
    {
      user, isAuthenticated, isLoading, error := None, false, true, None;
      this.storedToken := storedToken;
    }

    /** The startup effect: a stored token whose payload decodes to a user with
        a name and an email signs that user in; any other stored token is
        removed and the session signed out; without a token nothing changes.
        Loading is over afterwards in every case. */
    method CheckStoredToken(decode: string -> Option<User>)
      modifies this
      ensures !isLoading && error == old(error)
      ensures old(storedToken).None? || old(storedToken).value == "" ==>
        user == old(user) && isAuthenticated == old(isAuthenticated) && storedToken == old(storedToken)
      ensures old(storedToken).Some? && old(storedToken).value != "" ==>
        var decoded := DecodeJwt(old(storedToken).value, decode);
        && (AcceptedUser(decoded) ==> user == decoded && isAuthenticated && storedToken == old(storedToken))
        && (!AcceptedUser(decoded) ==> user == None && !isAuthenticated && storedToken == None)
    {
      if storedToken.Some? && storedToken.value != "" {
        var decodedUser := DecodeJwt(storedToken.value, decode);
        if decodedUser.Some? && decodedUser.value.name != "" && decodedUser.value.email != "" {
          user := decodedUser;
          isAuthenticated := true;
        } else {
          storedToken := None;
          isAuthenticated := false;
          user := None;
        }
      }
      isLoading := false;
    }

    /** `handleLogin` (and `handleSignup`, which does the same) with the
        service's outcome: success stores the token and signs the returned user
        in; failure records the message or "Login failed", hands the failure
        back, and leaves the session as it was. */
    method HandleLogin(outcome: Outcome<AuthData>) returns (result: Outcome<AuthData>)
      modifies this
      ensures result == outcome && isLoading == old(isLoading)
      ensures outcome.Ok? ==>
        && storedToken == Some(outcome.value.token) && isAuthenticated
        && user == outcome.value.user && error == None
      ensures outcome.Failed? ==>
        && error == Some(MessageOr(outcome.message, LoginFailed))
        && user == old(user) && isAuthenticated == old(isAuthenticated) && storedToken == old(storedToken)
    {
      error := None;
      match outcome {
        case Ok(data) =>
          storedToken := Some(data.token);
          isAuthenticated := true;
          user := data.user;
        case Failed(message) =>
          error := Some(MessageOr(message, LoginFailed));
      }
      result := outcome;
    }

    /** `handleLogout`: the token is removed and the session signed out. */
    method HandleLogout()
      modifies this
      ensures storedToken == None && user == None && !isAuthenticated
      ensures isLoading == old(isLoading) && error == old(error)
    {
      storedToken := None;
      user := None;
      isAuthenticated := false;
    }

    /** `clearError` */
    method ClearError()
      modifies this
      ensures error == None
      ensures user == old(user) && isAuthenticated == old(isAuthenticated)
      ensures isLoading == old(isLoading) && storedToken == old(storedToken)
    {
      error := None;
    }

    /** The provider renders its children only once the startup check is over. */
    predicate RendersChildren()
      reads this
    {
      !isLoading
    }
  }

  /** After a logout the next startup check finds no token and the session
      stays signed out, whatever the decoder. */
  method LogoutThenRestart(s: AuthSession, decode: string -> Option<User>)
    modifies s
    ensures !s.isAuthenticated && s.user == None && s.storedToken == None
    ensures s.RendersChildren()
  {
    s.HandleLogout();
    s.CheckStoredToken(decode);
  }
}
