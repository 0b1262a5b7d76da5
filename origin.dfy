/** The two predicates over the configured `httpUnsafeOrigin`: the startup
    check that it is a non-blank string (server.js lines 37-42) and the CORS
    rule that decides which request origins are allowed (lines 22-29). */
module Origin {
  import opened Messages

  /** The characters String.prototype.trim removes: ECMAScript WhiteSpace
      (tab, vertical tab, form feed, space, no-break space, the byte order
      mark and every Zs space) and LineTerminator (LF, CR, LS, PS). */
  predicate IsJsWhitespace(c: char)
  {
    || c == '\t' || c == '\n' || c == '\U{000B}' || c == '\U{000C}' || c == '\r'
    || c == ' ' || c == '\U{00A0}' || c == '\U{1680}' || ('\U{2000}' <= c <= '\U{200A}')
    || c == '\U{2028}' || c == '\U{2029}' || c == '\U{202F}' || c == '\U{205F}'
    || c == '\U{3000}' || c == '\U{FEFF}'
  }

  /** `s` with its leading whitespace removed. */
  function TrimStart(s: string): (r: string)
    ensures |r| <= |s| && r == s[|s| - |r|..]
    ensures forall i :: 0 <= i < |s| - |r| ==> IsJsWhitespace(s[i])
    ensures r == [] || !IsJsWhitespace(r[0])
  {
    if s == [] || !IsJsWhitespace(s[0]) then s else TrimStart(s[1..])
  }

  /** `s` with its trailing whitespace removed. */
  function TrimEnd(s: string): (r: string)
    ensures |r| <= |s| && r == s[..|r|]
    ensures forall i :: |r| <= i < |s| ==> IsJsWhitespace(s[i])
    ensures r == [] || !IsJsWhitespace(r[|r| - 1])
  {
    if s == [] || !IsJsWhitespace(s[|s| - 1]) then s else TrimEnd(s[..|s| - 1])
  }

  /** String.prototype.trim */
  function Trim(s: string): (r: string)
    ensures |r| <= |s|
    ensures r == [] || (!IsJsWhitespace(r[0]) && !IsJsWhitespace(r[|r| - 1]))
  {
    TrimEnd(TrimStart(s))
  }

  /** Trimming leaves nothing exactly when the string is all whitespace. */
  lemma TrimEmptyIffBlank(s: string)
    ensures Trim(s) == [] <==> forall i :: 0 <= i < |s| ==> IsJsWhitespace(s[i])
  {
    var t := TrimStart(s);
    if t != [] {
      assert !IsJsWhitespace(t[0]);
      assert TrimEnd(t) != [];
      assert s[|s| - |t|] == t[0];
    }
  }

  /** The configured origin as the environment holds it: a string or some
      other JavaScript value (undefined included). */
  datatype ConfigValue = StringValue(s: string) | NotAString

  datatype Outcome = Pass | Fail(reason: string)

  /** Startup refuses an origin that is not a string or is blank once trimmed. */
  function CheckUnsafeOrigin(v: ConfigValue): (o: Outcome)
    ensures o.Fail? <==> v.NotAString? || forall i :: 0 <= i < |v.s| ==> IsJsWhitespace(v.s[i])
    ensures o.Fail? ==> o.reason == "No 'httpUnsafeOrigin' provided"
  {
    match v
    case NotAString => Fail("No 'httpUnsafeOrigin' provided")
    case StringValue(s) =>
      TrimEmptyIffBlank(s);
      if Trim(s) == [] then Fail("No 'httpUnsafeOrigin' provided") else Pass
  }

  datatype CorsDecision = Allowed | Rejected(reason: string)

  /** The CORS `origin` option: a request without an origin header (or with an
      empty one) and every request under a wildcard configuration is allowed;
      otherwise only an exact, case-sensitive match with the configured origin. */
  function CorsOrigin(configured: string, origin: Option<string>): (d: CorsDecision)
    ensures configured == "*" ==> d == Allowed
    ensures origin == None || origin == Some("") ==> d == Allowed
    ensures origin == Some(configured) ==> d == Allowed
    ensures d == Allowed && configured != "*" && origin != None && origin != Some("")
            ==> origin == Some(configured)
    ensures d.Rejected? ==> d.reason == "Not allowed by CORS"
  {
    if configured == "*" || origin == None || origin == Some("") || origin == Some(configured) then
      Allowed
    else
      Rejected("Not allowed by CORS")
  }
}
