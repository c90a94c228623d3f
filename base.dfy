/** Values as the JavaScript and Python code of the portfolio sees them:
    missing values, the truthiness of strings, and `String.prototype.trim`. */
module Base {

  datatype Option<+T> = None | Some(value: T) {
    function GetOr(default: T): T {
      match this
      case Some(v) => v
      case None => default
    }
  }

  /** A call that either produces a value or fails with an error
      (an `HTTPException` on the server, a rejected promise on the client). */
  datatype Result<+T, +E> = Ok(value: T) | Err(error: E)

  /** Truthiness of a `string | undefined | null` in JavaScript, and of an
      `Optional[str]` in Python: present and not the empty string. */
  predicate Truthy(o: Option<string>) {
    o.Some? && o.value != ""
  }

  /** `a || fallback` where `a` is a possibly missing string. */
  function OrElse(a: Option<string>, fallback: string): string {
    if Truthy(a) then a.value else fallback
  }

  /** The characters ECMAScript's `trim` removes: WhiteSpace and LineTerminator. */
  predicate IsJsWhitespace(c: char) {
    || c == '\t' || c == '\n' || c == '\U{000B}' || c == '\U{000C}' || c == '\r'
    || c == ' ' || c == '\U{00A0}' || c == '\U{1680}'
    || ('\U{2000}' <= c <= '\U{200A}')
    || c == '\U{2028}' || c == '\U{2029}' || c == '\U{202F}' || c == '\U{205F}'
    || c == '\U{3000}' || c == '\U{FEFF}'
  }

  /** `s.trimStart()`: what is left is a suffix of `s`, everything dropped is
      whitespace, and what is left does not start with whitespace. */
  function TrimStart(s: string): (r: string)
    ensures |r| <= |s| && r == s[|s| - |r|..]
    ensures forall i :: 0 <= i < |s| - |r| ==> IsJsWhitespace(s[i])
    ensures r != "" ==> !IsJsWhitespace(r[0])
  {
    if s == "" || !IsJsWhitespace(s[0]) then s else TrimStart(s[1..])
  }

  /** `s.trimEnd()`: what is left is a prefix of `s`, everything dropped is
      whitespace, and what is left does not end with whitespace. */
  function TrimEnd(s: string): (r: string)
    ensures |r| <= |s| && r == s[..|r|]
    ensures forall i :: |r| <= i < |s| ==> IsJsWhitespace(s[i])
    ensures r != "" ==> !IsJsWhitespace(r[|r| - 1])
  {
    if s == "" || !IsJsWhitespace(s[|s| - 1]) then s else TrimEnd(s[..|s| - 1])
  }

  /** `s.trim()`. */
  function Trim(s: string): string {
    TrimEnd(TrimStart(s))
  }

  /** `!s.trim()`: the text is empty once trimmed. */
  predicate IsBlank(s: string) {
    Trim(s) == ""
  }

  /** A text is blank exactly when every character of it is whitespace. */
  lemma BlankIffAllWhitespace(s: string)
    ensures IsBlank(s) <==> forall i :: 0 <= i < |s| ==> IsJsWhitespace(s[i])
  {
    var t := TrimStart(s);
    if IsBlank(s) {
      forall i | 0 <= i < |s| ensures IsJsWhitespace(s[i]) {
        if i >= |s| - |t| {
          assert s[i] == t[i - (|s| - |t|)];
        }
      }
    } else {
      var r := TrimEnd(t);
      assert r != "" && !IsJsWhitespace(r[0]);
      assert r[0] == s[|s| - |t|];
    }
  }
}
