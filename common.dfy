/** Values and string helpers shared by the route handlers and the chat components:
    optional values, JavaScript truthiness of optional strings, ASCII digits and
    decimal rendering, and `String.prototype.trim`. */
module Common {

  datatype Option<T> = None | Some(value: T)

  /** `s` is truthy in JavaScript: present and not the empty string. */
  predicate Present(s: Option<string>) {
    s.Some? && s.value != ""
  }

  /** The JavaScript expression `s || fallback` for an optional string. */
  function OrElse(s: Option<string>, fallback: string): (r: string)
    ensures Present(s) ==> r == s.value
    ensures !Present(s) ==> r == fallback
  {
    if Present(s) then s.value else fallback
  }

  /** `s || ""`: the string itself, with an absent value read as empty. */
  function OrEmpty(s: Option<string>): (r: string)
    ensures r == "" <==> !Present(s)
  {
    if s.Some? then s.value else ""
  }

  /** `a || b || ... || last` over optional strings: the first truthy candidate, or
      `last` when there is none. */
  function FirstTruthy(cands: seq<Option<string>>, last: string): (r: string)
    ensures (forall i :: 0 <= i < |cands| ==> !Present(cands[i])) ==> r == last
    ensures forall i :: 0 <= i < |cands| && Present(cands[i]) && (forall j :: 0 <= j < i ==> !Present(cands[j])) ==>
                          r == cands[i].value
  {
    if cands == [] then last
    else if Present(cands[0]) then cands[0].value
    else FirstTruthy(cands[1..], last)
  }

  /** A boolean that may be absent is truthy only when present and true. */
  predicate Flag(b: Option<bool>) {
    b == Some(true)
  }

  // ---------------------------------------------------------------------------
  // ASCII digits (`\d` in a JavaScript regular expression without the `u` flag)

  predicate IsDigit(c: char) {
    '0' <= c <= '9'
  }

  predicate AllDigits(s: string) {
    forall i :: 0 <= i < |s| ==> IsDigit(s[i])
  }

  function DigitChar(d: nat): (c: char)
    requires d < 10
    ensures IsDigit(c) && c as int - '0' as int == d
  {
    ('0' as int + d) as char
  }

  /** The value of a string of decimal digits. */
  function DecimalValue(s: string): nat
    requires AllDigits(s)
  {
    if s == [] then 0 else DecimalValue(s[..|s| - 1]) * 10 + (s[|s| - 1] as int - '0' as int)
  }

  /** `n.toString()` for a non-negative integer: shortest decimal digits. */
  function NatToString(n: nat): (r: string)
    ensures |r| >= 1 && AllDigits(r)
    ensures r[0] == '0' ==> n == 0 && r == "0"
    ensures n < 10 <==> |r| == 1
  {
    if n < 10 then [DigitChar(n)] else NatToString(n / 10) + [DigitChar(n % 10)]
  }

  /** Reading back a rendered number gives the number. */
  lemma {:induction false} NatToStringRoundTrip(n: nat)
    ensures DecimalValue(NatToString(n)) == n
  {
    if n >= 10 {
      var r := NatToString(n);
      assert r[..|r| - 1] == NatToString(n / 10);
      NatToStringRoundTrip(n / 10);
    }
  }

  /** Two distinct numbers never render to the same string. */
  lemma NatToStringInjective(m: nat, n: nat)
    requires NatToString(m) == NatToString(n)
    ensures m == n
  {
    NatToStringRoundTrip(m);
    NatToStringRoundTrip(n);
  }

  /** `s.padStart(2, "0")`. */
  function PadTwo(s: string): (r: string)
    ensures |s| < 2 ==> |r| == 2 && r[2 - |s|..] == s
    ensures |s| >= 2 ==> r == s
  {
    if |s| == 0 then "00" else if |s| == 1 then "0" + s else s
  }

  /** `formatAudioDuration` on a whole number of seconds: the minutes, a colon, and
      the seconds within the minute padded to two digits. Reading the two fields back
      gives the minutes and the seconds below sixty; the minutes have no leading zero. */
  function FormatAudioDuration(seconds: nat): (r: string)
    ensures |r| >= 4 && r[|r| - 3] == ':'
    ensures AllDigits(r[..|r| - 3]) && DecimalValue(r[..|r| - 3]) == seconds / 60
    ensures AllDigits(r[|r| - 2..]) && DecimalValue(r[|r| - 2..]) == seconds % 60 < 60
    ensures |r| > 4 ==> r[0] != '0'
  {
    var mins := NatToString(seconds / 60);
    var secs := PadTwo(NatToString(seconds % 60));
    NatToStringRoundTrip(seconds / 60);
    SecondsField(seconds % 60);
    var r := mins + ":" + secs;
    assert r[..|r| - 3] == mins;
    assert r[|r| - 2..] == secs;
    assert r[0] == mins[0];
    r
  }

  /** A number below sixty padded to two digits reads back as itself. */
  lemma SecondsField(n: nat)
    requires n < 60
    ensures |PadTwo(NatToString(n))| == 2
    ensures AllDigits(PadTwo(NatToString(n))) && DecimalValue(PadTwo(NatToString(n))) == n
  {
    var s := NatToString(n);
    NatToStringRoundTrip(n);
    if n < 10 {
      assert PadTwo(s) == ['0'] + s;
      assert (['0'] + s)[..1] == ['0'];
    } else {
      assert s == NatToString(n / 10) + [DigitChar(n % 10)];
    }
  }

  // ---------------------------------------------------------------------------
  // Prefixes

  /** `s.startsWith(p)`. */
  predicate StartsWith(s: string, p: string) {
    |p| <= |s| && s[..|p|] == p
  }

  // ---------------------------------------------------------------------------
  // `String.prototype.trim`: removes leading and trailing white space and line
  // terminators as ECMAScript defines them.

  predicate IsSpace(c: char) {
    c == '\t' || c == '\n' || c == '\U{000B}' || c == '\U{000C}' || c == '\r' || c == ' '
    || c == '\U{00A0}' || c == '\U{1680}' || ('\U{2000}' <= c <= '\U{200A}')
    || c == '\U{2028}' || c == '\U{2029}' || c == '\U{202F}' || c == '\U{205F}'
    || c == '\U{3000}' || c == '\U{FEFF}'
  }

  /** The number of white-space characters at the start of `s`. */
  function LeadingSpace(s: string): (n: nat)
    ensures n <= |s|
    ensures forall k :: 0 <= k < n ==> IsSpace(s[k])
    ensures n < |s| ==> !IsSpace(s[n])
  {
    if s != [] && IsSpace(s[0]) then 1 + LeadingSpace(s[1..]) else 0
  }

  function TrimStart(s: string): (r: string)
    ensures |r| <= |s| && r == s[|s| - |r|..]
    ensures r == [] || !IsSpace(r[0])
    ensures forall i :: 0 <= i < |s| - |r| ==> IsSpace(s[i])
  {
    s[LeadingSpace(s)..]
  }

  function TrimEnd(s: string): (r: string)
    ensures |r| <= |s| && r == s[..|r|]
    ensures r == [] || !IsSpace(r[|r| - 1])
    ensures forall i :: |r| <= i < |s| ==> IsSpace(s[i])
  {
    if s != [] && IsSpace(s[|s| - 1]) then TrimEnd(s[..|s| - 1]) else s
  }

  /** Trimming removes a white-space prefix (`TrimStart`) and then a white-space
      suffix (`TrimEnd`): the result is the part of `s` that starts after its leading
      white space and is followed only by white space, and neither of its ends is
      white space. */
  function Trim(s: string): (r: string)
    ensures r == [] || (!IsSpace(r[0]) && !IsSpace(r[|r| - 1]))
    ensures LeadingSpace(s) + |r| <= |s| && r == s[LeadingSpace(s)..LeadingSpace(s) + |r|]
    ensures forall k :: LeadingSpace(s) + |r| <= k < |s| ==> IsSpace(s[k])
  {
    var a := TrimStart(s);
    var r := TrimEnd(a);
    assert r != [] ==> r[0] == a[0];
    var i := LeadingSpace(s);
    assert a == s[i..];
    assert forall k :: i + |r| <= k < |s| ==> s[k] == a[k - i];
    r
  }

  /** Trimming twice is trimming once. */
  lemma TrimIdempotent(s: string)
    ensures Trim(Trim(s)) == Trim(s)
  {
    var t := Trim(s);
    if t != [] {
      assert TrimStart(t) == t;
      assert TrimEnd(t) == t;
    }
  }

  /** A string is trimmed to nothing exactly when it is all white space. */
  lemma TrimEmptyIff(s: string)
    ensures Trim(s) == [] <==> forall k :: 0 <= k < |s| ==> IsSpace(s[k])
  {
    if forall k :: 0 <= k < |s| ==> IsSpace(s[k]) {
      AllSpaceTrimsToEmpty(s);
    }
  }

  lemma {:induction false} AllSpaceTrimsToEmpty(s: string)
    requires forall k :: 0 <= k < |s| ==> IsSpace(s[k])
    ensures TrimStart(s) == []
  {
    if s != [] {
      AllSpaceTrimsToEmpty(s[1..]);
    }
  }

  // ---------------------------------------------------------------------------
  // `toUpperCase` on the ASCII letters

  function UpperChar(c: char): (u: char)
    ensures 'a' <= c <= 'z' ==> u as int == c as int - 32
    ensures !('a' <= c <= 'z') ==> u == c
  {
    if 'a' <= c <= 'z' then (c as int - 32) as char else c
  }

  function Upper(s: string): (r: string)
    ensures |r| == |s|
    ensures forall i :: 0 <= i < |s| ==> r[i] == UpperChar(s[i])
  {
    seq(|s|, i requires 0 <= i < |s| => UpperChar(s[i]))
  }

  /** `s.substring(0, n)`. */
  function Prefix(s: string, n: nat): (r: string)
    ensures |r| == (if n < |s| then n else |s|)
    ensures r == s[..|r|]
  {
    if n < |s| then s[..n] else s
  }
}
