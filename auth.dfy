/**
 * The shared-secret check of the administrative status webhook: the token is
 * the second space-separated word of an `Authorization` header that mentions
 * `Bearer`, and it must be non-empty and equal to the configured secret.
 */
module Auth {
  import opened Optional
  import opened Text

  /** Taking the token either yields it (or no token), or raises `IndexError`. */
  datatype TokenResult = Token(token: Option<string>) | IndexError

  /** The token as the handler takes it: the second word after splitting on
      single spaces, indexed without checking that there is one. */
  function BearerTokenAsWritten(header: Option<string>): (r: TokenResult) {
    if header.Some? && Contains(header.value, "Bearer") then
      var parts := Split(header.value, " ");
      if |parts| > 1 then Token(Some(parts[1])) else IndexError
    else Token(None)
  }

  /** The handler raises exactly for a header that mentions `Bearer` but has
      no space, such as the bare word `Bearer`; the request then fails with a
      server error instead of being refused as unauthorised. */
  lemma BearerTokenAsWrittenRaises(header: string)
    ensures BearerTokenAsWritten(Some(header)) == IndexError
            <==> Contains(header, "Bearer") && !Contains(header, " ")
  {
    SplitPartsFree(header, " ");
  }

  lemma BareBearerRaises()
    ensures BearerTokenAsWritten(Some("Bearer")) == IndexError
  {
    BearerTokenAsWrittenRaises("Bearer");
    MissingCharExcludes("Bearer", " ", 0);
    assert OccursAt("Bearer", "Bearer", 0);
  }

  /** The token with the missing second word read as no token. */
  function BearerToken(header: Option<string>): (token: Option<string>)
    ensures token.Some? ==> header.Some? && Contains(header.value, "Bearer") && Contains(header.value, " ")
  {
    if header.Some? && Contains(header.value, "Bearer") then
      var parts := Split(header.value, " ");
      SplitPartsFree(header.value, " ");
      if |parts| > 1 then Some(parts[1]) else None
    else None
  }

  /** Wherever the handler does not raise, the corrected token is its token. */
  lemma BearerTokenAgrees(header: Option<string>)
    requires BearerTokenAsWritten(header) != IndexError
    ensures BearerTokenAsWritten(header) == Token(BearerToken(header))
  {
  }

  /** The webhook accepts a request when the token is present, non-empty and
      equal to the secret. */
  predicate IsAuthorized(header: Option<string>, secret: string) {
    var token := BearerToken(header);
    token.Some? && token.value != "" && token.value == secret
  }

  /** An empty secret authorises nobody. */
  lemma EmptySecretAuthorizesNobody(header: Option<string>)
    ensures !IsAuthorized(header, "")
  {
  }

  /** A header without `Bearer` or without a space, or no header, is refused. */
  lemma MalformedHeaderRefused(header: Option<string>, secret: string)
    requires header.None? || !Contains(header.value, "Bearer") || !Contains(header.value, " ")
    ensures !IsAuthorized(header, secret)
  {
  }

  /** `Bearer <secret>` is accepted for every non-empty secret without spaces. */
  lemma BearerSecretAccepted(secret: string)
    requires secret != "" && !Contains(secret, " ")
    ensures IsAuthorized(Some("Bearer " + secret), secret)
  {
    var header := "Bearer " + secret;
    assert header == "Bearer" + " " + secret;
    ThreeSlices("Bearer", " ", secret);
    assert OccursAt(header, "Bearer", 0);
    FirstSpaceAfterWord(header, "Bearer");
    var rest := header[7..];
    assert rest == secret;
    SplitAtFirst(header, " ");
    assert Split(secret, " ") == [secret] by {
      IndexOfIsFirst(secret, " ");
    }
  }

  /** In `word + " " + rest` with a space-free word, the first space follows
      the word. */
  lemma FirstSpaceAfterWord(s: string, word: string)
    requires |word| < |s| && s[..|word|] == word && s[|word|] == ' '
    requires !Contains(word, " ")
    ensures Contains(s, " ") && IndexOf(s, " ") == Some(|word|)
  {
    IndexOfIsFirst(s, " ");
    assert OccursAt(s, " ", |word|);
    forall j | 0 <= j < |word|
      ensures !OccursAt(s, " ", j)
    {
      assert s[j..j + 1] == word[j..j + 1] && !OccursAt(word, " ", j);
    }
    var i := IndexOf(s, " ").value;
    assert i <= |word|;
  }
}
