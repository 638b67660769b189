/**
 * The few pieces of JavaScript semantics that the application's decisions rest on:
 * absent values, truthiness of strings, the `||` fallback idiom and
 * `String.prototype.trim`.
 */
module Js {

  datatype Option<+T> = None | Some(value: T)

  /** A JavaScript string value that may be absent (`undefined` or `null`). */
  type MaybeString = Option<string>

  /** `!!v` for a value that is either absent or a string: only a non-empty string is truthy. */
  predicate Truthy(v: MaybeString) {
    v.Some? && v.value != ""
  }

  /** `v || fallback`: the value itself when it is truthy, otherwise the fallback. */
  function Or(v: MaybeString, fallback: string): (r: string)
    ensures Truthy(v) ==> r == v.value
    ensures !Truthy(v) ==> r == fallback
    ensures r == "" ==> fallback == ""
  {
    if Truthy(v) then v.value else fallback
  }

  /**
   * The characters `String.prototype.trim` removes: the ECMAScript WhiteSpace
   * characters (tab, vertical tab, form feed, space, no-break space, the byte
   * order mark and every space separator of Unicode category Zs) and the
   * LineTerminator characters (line feed, carriage return, line and paragraph
   * separators).
   */
  predicate IsSpace(ch: char) {
    || '\t' <= ch <= '\r'              // tab, line feed, vertical tab, form feed, carriage return
    || ch == ' ' || ch == '\U{00A0}' || ch == '\U{1680}'
    || '\U{2000}' <= ch <= '\U{200A}'
    || ch == '\U{2028}' || ch == '\U{2029}' || ch == '\U{202F}' || ch == '\U{205F}'
    || ch == '\U{3000}' || ch == '\U{FEFF}'
  }

  predicate AllSpace(s: string) {
    forall i :: 0 <= i < |s| ==> IsSpace(s[i])
  }

  /** Neither the first nor the last character is white space. */
  predicate NoOuterSpace(s: string) {
    s != [] ==> !IsSpace(s[0]) && !IsSpace(s[|s| - 1])
  }

  /** Drops the leading white space. */
  function TrimStart(s: string): string {
    if s != [] && IsSpace(s[0]) then TrimStart(s[1..]) else s
  }

  /** Drops the trailing white space. */
  function TrimEnd(s: string): string {
    if s != [] && IsSpace(s[|s| - 1]) then TrimEnd(s[..|s| - 1]) else s
  }

  /** TrimStart leaves a suffix that starts with a non-space, and drops only white space. */
  lemma {:induction false} TrimStartSuffix(s: string)
    ensures var r := TrimStart(s);
      |r| <= |s| && r == s[|s| - |r|..] && AllSpace(s[..|s| - |r|]) && (r != [] ==> !IsSpace(r[0]))
  {
    if s != [] && IsSpace(s[0]) {
      TrimStartSuffix(s[1..]);
      var r := TrimStart(s);
      assert s[..|s| - |r|] == [s[0]] + s[1..][..|s| - 1 - |r|];
    }
  }

  /** TrimEnd leaves a prefix that ends with a non-space, and drops only white space. */
  lemma {:induction false} TrimEndPrefix(s: string)
    ensures var r := TrimEnd(s);
      |r| <= |s| && r == s[..|r|] && AllSpace(s[|r|..]) && (r != [] ==> !IsSpace(r[|r| - 1]))
  {
    if s != [] && IsSpace(s[|s| - 1]) {
      var t := s[..|s| - 1];
      TrimEndPrefix(t);
      var r := TrimEnd(s);
      assert s[|r|..] == t[|r|..] + [s[|s| - 1]];
    }
  }

  /** `s.trim()`: white space dropped at both ends. */
  function Trim(s: string): (r: string)
    ensures |r| <= |s|
    ensures r == "" <==> AllSpace(s)
    ensures NoOuterSpace(r)
    ensures exists i, j :: 0 <= i <= j <= |s| && r == s[i..j] && AllSpace(s[..i]) && AllSpace(s[j..])
  {
    var front := TrimStart(s);
    TrimStartSuffix(s);
    TrimEndPrefix(front);
    var r := TrimEnd(front);
    var i := |s| - |front|;
    assert s == s[..i] + front;
    assert s[i..i + |r|] == r && s[i + |r|..] == front[|r|..];
    assert r == "" ==> front == front[|r|..];
    assert r != "" ==> r[0] == front[0];
    r
  }

  /** A string without outer white space is its own trim. */
  lemma TrimOfTrimmed(s: string)
    requires NoOuterSpace(s)
    ensures Trim(s) == s
  {
    assert TrimStart(s) == s;
    assert TrimEnd(s) == s;
  }

  /** Trimming twice is trimming once. */
  lemma TrimIdempotent(s: string)
    ensures Trim(Trim(s)) == Trim(s)
  {
    TrimOfTrimmed(Trim(s));
  }
}
