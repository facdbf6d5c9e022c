/**
 * The field rules shared by the registration and profile forms, as the form
 * library applies them to a string value: `required` rejects only "",
 * `minLength` / `maxLength` count UTF-16 code units and, like `pattern`, are
 * skipped for "".
 */
module FormRules {
  import opened Common

  /** Code units of one character in UTF-16. */
  function CodeUnits(c: char): nat {
    if c as int < 0x1_0000 then 1 else 2
  }

  /** The JavaScript `length` of a string, in UTF-16 code units. */
  function Utf16Length(s: string): (n: nat)
    ensures |s| <= n <= 2 * |s|
    ensures n == |s| <==> forall i :: 0 <= i < |s| ==> s[i] as int < 0x1_0000
  {
    if s == [] then 0 else CodeUnits(s[0]) + Utf16Length(s[1..])
  }

  predicate IsUpper(c: char) { 'A' <= c <= 'Z' }
  predicate IsLower(c: char) { 'a' <= c <= 'z' }
  predicate IsDigit(c: char) { '0' <= c <= '9' }

  /** `[A-Z]` under the `i` flag. */
  predicate IsLetter(c: char) { IsUpper(c) || IsLower(c) }

  /** `[A-Z0-9._%+-]` under the `i` flag. */
  predicate IsLocalChar(c: char) {
    IsLetter(c) || IsDigit(c) || c == '.' || c == '_' || c == '%' || c == '+' || c == '-'
  }

  /** `[A-Z0-9.-]` under the `i` flag. */
  predicate IsDomainChar(c: char) {
    IsLetter(c) || IsDigit(c) || c == '.' || c == '-'
  }

  /** `@` at index `at` and the `\.` at index `dot` split `s` into local part, domain and TLD. */
  predicate EmailSplit(s: string, at: int, dot: int) {
    && 0 < at && at + 1 < dot && dot + 2 < |s|
    && (forall i :: 0 <= i < at ==> IsLocalChar(s[i]))
    && s[at] == '@'
    && (forall i :: at < i < dot ==> IsDomainChar(s[i]))
    && s[dot] == '.'
    && (forall i :: dot < i < |s| ==> IsLetter(s[i]))
  }

  /** `/^[A-Z0-9._%+-]+@[A-Z0-9.-]+\.[A-Z]{2,}$/i` */
  predicate EmailPattern(s: string) {
    exists at, dot | 0 < at < dot < |s| :: EmailSplit(s, at, dot)
  }

  /** A matching address has exactly one `@`, and it is the split point. */
  lemma EmailHasOneAt(s: string, at: int, dot: int)
    requires EmailSplit(s, at, dot)
    ensures forall i :: 0 <= i < |s| && s[i] == '@' ==> i == at
  {
  }

  /** The split dot is the last `.` of the address: the TLD is letters only. */
  lemma EmailDotIsLast(s: string, at: int, dot: int)
    requires EmailSplit(s, at, dot)
    ensures forall i :: dot < i < |s| ==> s[i] != '.'
  {
  }

  /** `[\da-z.-]` (no `i` flag in this pattern). */
  predicate IsHostChar(c: char) { IsDigit(c) || IsLower(c) || c == '.' || c == '-' }

  /** `[a-z.]` */
  predicate IsTldChar(c: char) { IsLower(c) || c == '.' }

  /** `[/\w .-]`, where `\w` is `[A-Za-z0-9_]`. */
  predicate IsPathChar(c: char) {
    IsLetter(c) || IsDigit(c) || c == '_' || c == '/' || c == ' ' || c == '.' || c == '-'
  }

  /** `([\da-z.-]+)\.([a-z.]{2,6})` ending at `dot + 1 + tld`, then path characters to the end. */
  predicate UrlSplit(s: string, dot: int, tld: int) {
    && 0 < dot && 2 <= tld <= 6 && dot + 1 + tld <= |s|
    && (forall i :: 0 <= i < dot ==> IsHostChar(s[i]))
    && s[dot] == '.'
    && (forall i :: dot < i <= dot + tld ==> IsTldChar(s[i]))
    && (forall i :: dot + tld < i < |s| ==> IsPathChar(s[i]))
  }

  /** The pattern after the optional scheme. `([/\w .-]*)*\/?` matches exactly the strings of path characters. */
  predicate UrlRest(s: string) {
    exists dot, tld | 0 < dot < |s| && 2 <= tld <= 6 :: UrlSplit(s, dot, tld)
  }

  predicate StartsWith(s: string, prefix: string) {
    |prefix| <= |s| && s[..|prefix|] == prefix
  }

  /** `/^(https?:\/\/)?([\da-z.-]+)\.([a-z.]{2,6})([/\w .-]*)*\/?$/` */
  predicate ImageUrlPattern(s: string) {
    || UrlRest(s)
    || (StartsWith(s, "http://") && UrlRest(s[7..]))
    || (StartsWith(s, "https://") && UrlRest(s[8..]))
  }

  /** `required` then `minLength: min`, with the two messages a form gives them. */
  function RequiredMinLength(v: string, min: nat, required: string, tooShort: string): (e: Option<string>)
    requires required != tooShort
    ensures e.None? <==> v != "" && Utf16Length(v) >= min
    ensures e == Some(required) <==> v == ""
    ensures e == Some(tooShort) <==> v != "" && Utf16Length(v) < min
  {
    if v == "" then Some(required)
    else if Utf16Length(v) < min then Some(tooShort)
    else None
  }

  /** `required` then the email `pattern`, with the two messages a form gives them. */
  function RequiredEmail(v: string, required: string, invalid: string): (e: Option<string>)
    requires required != invalid
    ensures e.None? <==> v != "" && EmailPattern(v)
    ensures e == Some(required) <==> v == ""
    ensures e == Some(invalid) <==> v != "" && !EmailPattern(v)
  {
    if v == "" then Some(required)
    else if !EmailPattern(v) then Some(invalid)
    else None
  }
}
