/**
 * The pieces of Go's `strings` and `unicode` packages that the handlers
 * rely on: suffix and prefix tests, the white-space table behind
 * `strings.TrimSpace`, and the ordering that `sort.Strings` uses.
 *
 * Strings are sequences of Unicode scalar values. Go compares strings by
 * their UTF-8 bytes; UTF-8 preserves the order of code points, so
 * comparing the code points gives the same order.
 */
module GoStrings {

  /** `strings.HasPrefix(s, prefix)` */
  predicate HasPrefix(s: string, prefix: string) {
    |prefix| <= |s| && s[..|prefix|] == prefix
  }

  /** `strings.HasSuffix(s, suffix)` */
  predicate HasSuffix(s: string, suffix: string) {
    |suffix| <= |s| && s[|s| - |suffix|..] == suffix
  }

  /**
   * `unicode.IsSpace`: the Latin-1 spaces '\t', '\n', '\v', '\f', '\r',
   * ' ', U+0085 and U+00A0, and above Latin-1 the code points with the
   * Unicode White_Space property.
   */
  predicate IsSpace(c: char) {
    var n := c as int;
    (0x09 <= n <= 0x0D) || n == 0x20 || n == 0x85 || n == 0xA0
    || n == 0x1680 || (0x2000 <= n <= 0x200A) || n == 0x2028 || n == 0x2029
    || n == 0x202F || n == 0x205F || n == 0x3000
  }

  predicate AllSpace(s: string) {
    forall i :: 0 <= i < |s| ==> IsSpace(s[i])
  }

  /** The first scan of `strings.TrimSpace`: from `i`, the index of the first non-space. */
  function TrimStart(s: string, i: nat): (start: nat)
    requires i <= |s|
    ensures i <= start <= |s|
    ensures forall j :: i <= j < start ==> IsSpace(s[j])
    ensures start < |s| ==> !IsSpace(s[start])
    decreases |s| - i
  {
    if i < |s| && IsSpace(s[i]) then TrimStart(s, i + 1) else i
  }

  /**
   * The second scan of `strings.TrimSpace`: from `stop` down to `start`,
   * the end of the last non-space.
   */
  function TrimStop(s: string, start: nat, stop: nat): (end: nat)
    requires start <= stop <= |s|
    ensures start <= end <= stop
    ensures forall j :: end <= j < stop ==> IsSpace(s[j])
    ensures start < end ==> !IsSpace(s[end - 1])
    decreases stop
  {
    if start < stop && IsSpace(s[stop - 1]) then TrimStop(s, start, stop - 1) else stop
  }

  /**
   * `strings.TrimSpace(s)`: the slice of `s` between its leading and its
   * trailing white space.
   */
  function TrimSpace(s: string): (r: string)
    ensures r == [] || (!IsSpace(r[0]) && !IsSpace(r[|r| - 1]))
    ensures exists start, end :: 0 <= start <= end <= |s| && r == s[start..end]
              && AllSpace(s[..start]) && AllSpace(s[end..])
  {
    var start := TrimStart(s, 0);
    var end := TrimStop(s, start, |s|);
    assert AllSpace(s[..start]) && AllSpace(s[end..]);
    s[start..end]
  }

  /** Trimming is idempotent: a trimmed string has nothing left to trim. */
  lemma TrimSpaceIdempotent(s: string)
    ensures TrimSpace(TrimSpace(s)) == TrimSpace(s)
  {
  }

  /**
   * Go's `<` on strings (the order `sort.Strings` sorts by): the first
   * differing character decides, and a proper prefix comes first.
   */
  predicate Less(a: string, b: string) {
    if b == [] then false
    else if a == [] then true
    else if a[0] != b[0] then a[0] < b[0]
    else Less(a[1..], b[1..])
  }

  lemma {:induction false} LessIrreflexive(a: string)
    ensures !Less(a, a)
  {
    if a != [] {
      LessIrreflexive(a[1..]);
    }
  }

  lemma {:induction false} LessTransitive(a: string, b: string, c: string)
    requires Less(a, b) && Less(b, c)
    ensures Less(a, c)
  {
    if a != [] && a[0] == b[0] && b[0] == c[0] {
      LessTransitive(a[1..], b[1..], c[1..]);
    }
  }

  lemma {:induction false} LessTotal(a: string, b: string)
    ensures a == b || Less(a, b) || Less(b, a)
  {
    if a != [] && b != [] && a[0] == b[0] {
      LessTotal(a[1..], b[1..]);
      if a[1..] == b[1..] {
        assert a == [a[0]] + a[1..] && b == [b[0]] + b[1..];
      }
    }
  }

  lemma {:induction false} LessAsymmetric(a: string, b: string)
    ensures !(Less(a, b) && Less(b, a))
  {
    if a != [] && b != [] && a[0] == b[0] {
      LessAsymmetric(a[1..], b[1..]);
    }
  }
}
