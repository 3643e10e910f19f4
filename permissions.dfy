/** `IsVaultAuthenticated.has_permission` (api/permissions.py): a request
    passes when its Authorization header carries a Bearer token that Vault
    accepts. The Vault token lookup is an oracle: it returns, raises
    `InvalidRequest`, or raises anything else. */
module Permissions {
  import opened Json
  import opened Py

  const Bearer: string := "Bearer "

  /** What the Vault token lookup does for a token. */
  datatype Lookup = Accepted | InvalidRequest | Failed(message: string)

  /** The answer, and the token looked up in Vault, if any was. */
  datatype Decision = Decision(granted: bool, lookedUp: Option<string>)

  /** `auth_header.split(' ')[1]` of a header that starts with "Bearer ": the
      text after "Bearer " up to the next space. */
  function TokenOf(header: string): (token: string)
    requires StartsWith(header, Bearer)
    ensures ' ' !in token
  {
    var rest := header[|Bearer|..];
    assert header == "Bearer" + [' '] + rest;
    SplitAfter("Bearer", ' ', rest);
    SplitPieces(rest, ' ');
    Split(header, ' ')[1]
  }

  /** No piece of a split holds the separator. */
  lemma {:induction false} SplitPieces(s: string, sep: char)
    ensures forall i :: 0 <= i < |Split(s, sep)| ==> sep !in Split(s, sep)[i]
    ensures sep !in Split(s, sep)[0]
    decreases |s|
  {
    if s != [] {
      SplitPieces(s[1..], sep);
      var rest := Split(s[1..], sep);
      if s[0] != sep {
        assert Split(s, sep)[1..] == rest[1..];
      }
    }
  }

  /** `has_permission(request, view)`, given the header (absent or its text).
      Access is granted exactly when the header starts with "Bearer ", the
      token after it is non-empty and Vault's lookup returns; Vault is asked
      about that token and no other, and only then. */
  function HasPermission(header: Option<string>, lookup: string -> Lookup): (d: Decision)
    ensures d.lookedUp.Some? <==> header.Some? && StartsWith(header.value, Bearer) && TokenOf(header.value) != ""
    ensures d.lookedUp.Some? ==> d.lookedUp.value == TokenOf(header.value)
    ensures d.granted <==> d.lookedUp.Some? && lookup(d.lookedUp.value) == Accepted
  {
    if header.None? || header.value == "" || !StartsWith(header.value, Bearer) then Decision(false, None)
    else
      var token := TokenOf(header.value);
      if token == "" then Decision(false, None)
      else Decision(lookup(token) == Accepted, Some(token))
  }

  // ---------------------------------------------------------------------
  // Properties

  /** The token is the text between "Bearer " and the next space; anything
      after that is ignored. */
  lemma TokenIsSecondPiece(token: string, rest: string)
    requires ' ' !in token
    ensures StartsWith(Bearer + token, Bearer) && TokenOf(Bearer + token) == token
    ensures StartsWith(Bearer + token + " " + rest, Bearer) && TokenOf(Bearer + token + " " + rest) == token
  {
    var h := Bearer + token + " " + rest;
    assert h[..|Bearer|] == Bearer && h == "Bearer" + [' '] + (token + [' '] + rest);
    SplitAfter("Bearer", ' ', token + [' '] + rest);
    SplitAfter(token, ' ', rest);
    assert Split(h, ' ')[1] == token;
    var g := Bearer + token;
    assert g[..|Bearer|] == Bearer && g == "Bearer" + [' '] + token;
    SplitAfter("Bearer", ' ', token);
    SplitWhole(token, ' ');
    assert Split(g, ' ')[1] == token;
  }

  /** "Bearer" followed by two spaces gives an empty token: refused without
      asking Vault. */
  lemma DoubleSpaceRefused(rest: string, lookup: string -> Lookup)
    ensures HasPermission(Some("Bearer  " + rest), lookup) == Decision(false, None)
  {
    var h := "Bearer  " + rest;
    assert h == Bearer + "" + " " + rest;
    TokenIsSecondPiece("", rest);
  }

  /** The prefix is case-sensitive. */
  lemma LowerCaseRefused(rest: string, lookup: string -> Lookup)
    ensures HasPermission(Some("bearer " + rest), lookup) == Decision(false, None)
  {
    assert ("bearer " + rest)[0] != Bearer[0];
  }

  /** A token Vault rejects, or a lookup that fails in any other way, is
      refused rather than raised. */
  lemma LookupErrorsRefuse(token: string, lookup: string -> Lookup)
    requires token != "" && ' ' !in token && lookup(token) != Accepted
    ensures HasPermission(Some(Bearer + token), lookup) == Decision(false, Some(token))
  {
    TokenIsSecondPiece(token, "");
  }
}
