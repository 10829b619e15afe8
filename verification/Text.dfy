/** String helpers of the Go standard library that the gateway and the control
    plane rely on. Case mapping covers ASCII; white space is Go's full list. */
module Text {

  datatype Option<+T> = None | Some(value: T)

  datatype Result<+T, +E> = Ok(value: T) | Err(error: E)

  predicate IsSpace(c: char) {
    var n := c as int;
    9 <= n <= 13 || n == 32 || n == 0x85 || n == 0xA0 || n == 0x1680 || 0x2000 <= n <= 0x200A
    || n == 0x2028 || n == 0x2029 || n == 0x202F || n == 0x205F || n == 0x3000
  }

  predicate TrimmedEdges(s: string) {
    s == "" || (!IsSpace(s[0]) && !IsSpace(s[|s| - 1]))
  }

  /** `strings.TrimSpace`. */
  function TrimSpace(s: string): (r: string)
    ensures TrimmedEdges(r)
    ensures TrimmedEdges(s) ==> r == s
    ensures r == "" <==> forall i :: 0 <= i < |s| ==> IsSpace(s[i])
  {
    if s == "" then s
    else if IsSpace(s[0]) then
      assert s == [s[0]] + s[1..];
      TrimSpace(s[1..])
    else if IsSpace(s[|s| - 1]) then
      assert s == s[..|s| - 1] + [s[|s| - 1]];
      TrimSpace(s[..|s| - 1])
    else s
  }

  predicate Blank(s: string) {
    TrimSpace(s) == ""
  }

  predicate IsLower(c: char) { 'a' <= c <= 'z' }

  predicate IsUpper(c: char) { 'A' <= c <= 'Z' }

  function LowerChar(c: char): char {
    if IsUpper(c) then (c as int + 32) as char else c
  }

  function UpperChar(c: char): char {
    if IsLower(c) then (c as int - 32) as char else c
  }

  function ToLower(s: string): (r: string)
    ensures |r| == |s|
  {
    seq(|s|, i requires 0 <= i < |s| => LowerChar(s[i]))
  }

  predicate EqualFold(a: string, b: string) {
    ToLower(a) == ToLower(b)
  }

  predicate Contains(s: string, sub: string) {
    exists i | 0 <= i <= |s| :: sub <= s[i..]
  }

  /** Characters allowed in a header field name (section 5.6.2 of RFC 9110). */
  predicate TokenChar(c: char) {
    IsLower(c) || IsUpper(c) || '0' <= c <= '9' || c in "!#$%&'*+-.^_`|~"
  }

  function CanonicalFrom(s: string, upper: bool): (r: string)
    ensures |r| == |s|
  {
    if s == "" then ""
    else [if upper then UpperChar(s[0]) else LowerChar(s[0])] + CanonicalFrom(s[1..], s[0] == '-')
  }

  predicate AllToken(s: string) {
    forall i | 0 <= i < |s| :: TokenChar(s[i])
  }

  /** `http.CanonicalHeaderKey`: a name with an invalid character is left alone. */
  function CanonicalHeaderKey(s: string): string {
    if AllToken(s) then CanonicalFrom(s, true) else s
  }

  /** policy/store.go:606-608 */
  function CanonicalHeaderName(name: string): string {
    CanonicalHeaderKey(TrimSpace(name))
  }

  lemma NoSpaceEdges(s: string)
    requires AllToken(s)
    ensures TrimmedEdges(s)
  {
  }

  lemma {:induction false} CanonicalFromFixed(s: string, upper: bool)
    requires AllToken(s)
    ensures var r := CanonicalFrom(s, upper); AllToken(r) && CanonicalFrom(r, upper) == r
  {
    if s != "" {
      CanonicalFromFixed(s[1..], s[0] == '-');
      var r := CanonicalFrom(s, upper);
      assert r[1..] == CanonicalFrom(s[1..], s[0] == '-');
    }
  }

  /** Parsing canonicalises a header name and matching canonicalises it again:
      the second pass never changes the key that is looked up. */
  lemma {:induction false} CanonicalHeaderNameIdempotent(name: string)
    ensures CanonicalHeaderName(CanonicalHeaderName(name)) == CanonicalHeaderName(name)
  {
    var t := TrimSpace(name);
    if AllToken(t) {
      CanonicalFromFixed(t, true);
      NoSpaceEdges(CanonicalFrom(t, true));
    }
  }

  /** Byte-wise string order of Go, which on UTF-8 is code point order. */
  predicate Less(a: string, b: string) {
    b != "" && (a == "" || a[0] < b[0] || (a[0] == b[0] && Less(a[1..], b[1..])))
  }

  lemma {:induction false} LessIrreflexive(a: string)
    ensures !Less(a, a)
  {
    if a != "" {
      LessIrreflexive(a[1..]);
    }
  }

  lemma {:induction false} LessTotal(a: string, b: string)
    ensures Less(a, b) || a == b || Less(b, a)
    ensures !(Less(a, b) && Less(b, a))
    ensures !Less(a, a)
  {
    LessIrreflexive(a);
    if a != "" {
      if b != "" && a[0] == b[0] {
        LessTotal(a[1..], b[1..]);
        assert a == [a[0]] + a[1..] && b == [b[0]] + b[1..];
      }
    }
  }

  lemma {:induction false} LessTransitive(a: string, b: string, c: string)
    requires Less(a, b) && Less(b, c)
    ensures Less(a, c)
  {
    if a != "" && a[0] == b[0] == c[0] {
      LessTransitive(a[1..], b[1..], c[1..]);
    }
  }

  predicate HasChar(s: string, c: char) {
    exists i | 0 <= i < |s| :: s[i] == c
  }

  /** Position of the first occurrence of `c`, or the length of `s`. */
  function IndexOf(s: string, c: char): (i: nat)
    ensures i <= |s|
    ensures i < |s| ==> s[i] == c
    ensures c !in s[..i]
  {
    if s == "" || s[0] == c then 0
    else
      var i := 1 + IndexOf(s[1..], c);
      assert s[..i] == [s[0]] + s[1..][..i - 1];
      i
  }

  /** Position after the last occurrence of `c`, or 0. */
  function AfterLast(s: string, c: char): (i: nat)
    ensures i <= |s|
    ensures i > 0 ==> s[i - 1] == c
  {
    if s == "" then 0
    else if s[|s| - 1] == c then |s|
    else AfterLast(s[..|s| - 1], c)
  }

  /** `net.SplitHostPort`, host part only; `None` is its error. */
  function SplitHost(s: string): Option<string> {
    var colon := AfterLast(s, ':');
    if colon == 0 then None
    else if s[0] == '[' then
      var close := IndexOf(s, ']');
      if close == |s| || close + 1 != colon - 1 then None
      else if HasChar(s[1..], '[') || HasChar(s[close + 1..], ']') then None
      else if close == 0 then None
      else Some(s[1..close])
    else
      var host := s[..colon - 1];
      if HasChar(host, ':') || HasChar(s, '[') || HasChar(s, ']') then None else Some(host)
  }

  predicate Bracket(c: char) { c == '[' || c == ']' }

  /** `strings.Trim(s, "[]")`. */
  function TrimBrackets(s: string): string {
    if s == "" then s
    else if Bracket(s[0]) then TrimBrackets(s[1..])
    else if Bracket(s[|s| - 1]) then TrimBrackets(s[..|s| - 1])
    else s
  }

  /** policy/store.go:196-207 */
  function NormalizeHost(raw: string): string {
    var host := TrimSpace(ToLower(raw));
    if host == "" then ""
    else match SplitHost(host)
      case Some(h) => TrimBrackets(h)
      case None => TrimBrackets(host)
  }
}
