/**
 * The PHP built-ins the WikiSEO orchestrator relies on, written out as pure
 * functions: `empty`, string conversion by `sprintf('%s', …)`, `trim`,
 * `implode`, and `preg_replace("/\r|\n/", '', …)`.
 */
module Php {

  /**
   * A value stored in a PHP array after validation: a string, `null`, or a
   * nested array (repeatable attributes). Booleans and numbers are not
   * modelled (see README, "Left out").
   */
  datatype Value = Null | Str(s: string) | List(items: seq<Value>)

  /** PHP's `empty()`: `null`, `""`, `"0"` and the empty array are empty. */
  predicate IsEmpty(v: Value)
  {
    match v
    case Null => true
    case Str(s) => s == "" || s == "0"
    case List(items) => |items| == 0
  }

  /** String conversion as performed by `sprintf('%s', v)` and `(string) v`. */
  function ToText(v: Value): string
  {
    match v
    case Null => ""
    case Str(s) => s
    case List(_) => "Array"
  }

  // ---------------------------------------------------------------------
  // preg_replace("/\r|\n/", '', s)
  // ---------------------------------------------------------------------

  predicate IsLineBreak(c: char)
  {
    c == '\r' || c == '\n'
  }

  predicate NoLineBreaks(s: string)
  {
    forall i :: 0 <= i < |s| ==> !IsLineBreak(s[i])
  }

  /** Removes every carriage return and line feed from `s`; the result holds no line break. */
  function StripLineBreaks(s: string): (r: string)
    ensures NoLineBreaks(r)
    ensures |r| <= |s|
  {
    if |s| == 0 then ""
    else if IsLineBreak(s[0]) then StripLineBreaks(s[1..])
    else [s[0]] + StripLineBreaks(s[1..])
  }

  /** Every character other than CR and LF survives stripping as often as it occurs in `s`. */
  lemma {:induction false} StripLineBreaksKeepsOthers(s: string, c: char)
    requires !IsLineBreak(c)
    ensures multiset(StripLineBreaks(s))[c] == multiset(s)[c]
    decreases |s|
  {
    if |s| > 0 {
      assert s == [s[0]] + s[1..];
      StripLineBreaksKeepsOthers(s[1..], c);
    }
  }

  /** Stripping distributes over concatenation: the surviving characters keep their order. */
  lemma {:induction false} StripLineBreaksAppend(a: string, b: string)
    ensures StripLineBreaks(a + b) == StripLineBreaks(a) + StripLineBreaks(b)
    decreases |a|
  {
    if |a| == 0 {
      assert a + b == b;
    } else {
      assert (a + b)[0] == a[0];
      assert (a + b)[1..] == a[1..] + b;
      StripLineBreaksAppend(a[1..], b);
    }
  }

  /** A string without line breaks is left as it is. */
  lemma {:induction false} StripLineBreaksKeepsClean(s: string)
    requires NoLineBreaks(s)
    ensures StripLineBreaks(s) == s
    decreases |s|
  {
    if |s| > 0 {
      var rest := s[1..];
      assert NoLineBreaks(rest) by {
        forall i | 0 <= i < |rest|
          ensures !IsLineBreak(rest[i])
        {
          assert rest[i] == s[i + 1];
        }
      }
      StripLineBreaksKeepsClean(rest);
      assert !IsLineBreak(s[0]);
      assert s == [s[0]] + rest;
    }
  }

  /** Stripping leaves exactly the strings without line breaks unchanged. */
  lemma StripLineBreaksIdentity(s: string)
    ensures StripLineBreaks(s) == s <==> NoLineBreaks(s)
  {
    if NoLineBreaks(s) {
      StripLineBreaksKeepsClean(s);
    }
  }

  /** Stripping twice is stripping once. */
  lemma StripLineBreaksIdempotent(s: string)
    ensures StripLineBreaks(StripLineBreaks(s)) == StripLineBreaks(s)
  {
    StripLineBreaksIdentity(StripLineBreaks(s));
  }

  // ---------------------------------------------------------------------
  // trim(s) with PHP's default character list " \t\n\r\0\x0B"
  // ---------------------------------------------------------------------

  predicate IsTrimChar(c: char)
  {
    c == ' ' || c == '\t' || c == '\n' || c == '\r' || c == '\0' || c == '\U{000B}'
  }

  predicate AllTrimChars(s: string)
  {
    forall i :: 0 <= i < |s| ==> IsTrimChar(s[i])
  }

  /** The number of trim characters at the front of `s`. */
  function LeadingTrimCount(s: string): (n: nat)
    ensures n <= |s|
    ensures forall i :: 0 <= i < n ==> IsTrimChar(s[i])
    ensures n < |s| ==> !IsTrimChar(s[n])
  {
    if |s| == 0 || !IsTrimChar(s[0]) then 0
    else 1 + LeadingTrimCount(s[1..])
  }

  /** The number of trim characters at the back of `s`. */
  function TrailingTrimCount(s: string): (n: nat)
    ensures n <= |s|
    ensures forall i :: |s| - n <= i < |s| ==> IsTrimChar(s[i])
    ensures n < |s| ==> !IsTrimChar(s[|s| - n - 1])
  {
    if |s| == 0 || !IsTrimChar(s[|s| - 1]) then 0
    else 1 + TrailingTrimCount(s[..|s| - 1])
  }

  /**
   * PHP's `trim`: the result is the slice of `s` left after removing trim
   * characters from both ends, so it neither starts nor ends with one, and
   * everything cut away consists of trim characters only.
   */
  function Trim(s: string): (r: string)
    ensures |r| == 0 || (!IsTrimChar(r[0]) && !IsTrimChar(r[|r| - 1]))
    ensures exists lo: nat, hi: nat ::
              (lo <= hi <= |s| && r == s[lo..hi] && AllTrimChars(s[..lo]) && AllTrimChars(s[hi..]))
  {
    var lo := LeadingTrimCount(s);
    var rest := s[lo..];
    var k := TrailingTrimCount(rest);
    var hi := lo + |rest| - k;
    assert s[lo..hi] == rest[..|rest| - k];
    assert s[hi..] == rest[|rest| - k..];
    if k == |rest| then
      assert AllTrimChars(s[..hi]) by {
        assert s[..hi] == s[..lo];
      }
      assert AllTrimChars(s[hi..]);
      ""
    else
      s[lo..hi]
  }

  // ---------------------------------------------------------------------
  // implode(sep, parts)
  // ---------------------------------------------------------------------

  function TotalLength(parts: seq<string>): nat
  {
    if |parts| == 0 then 0 else TotalLength(parts[..|parts| - 1]) + |parts[|parts| - 1]|
  }

  /** PHP's `implode`: the parts in order with `sep` between neighbours. */
  function Implode(sep: string, parts: seq<string>): (r: string)
    ensures |parts| == 0 ==> r == ""
    ensures |parts| > 0 ==> |r| == TotalLength(parts) + (|parts| - 1) * |sep|
  {
    if |parts| == 0 then ""
    else if |parts| == 1 then parts[0]
    else
      var init := parts[..|parts| - 1];
      assert init[..|init| - 1] == parts[..|parts| - 2];
      Implode(sep, init) + sep + parts[|parts| - 1]
  }

  /** Imploding two non-empty lists is imploding each and joining the halves with `sep`. */
  lemma {:induction false} ImplodeConcat(sep: string, xs: seq<string>, ys: seq<string>)
    requires |xs| > 0 && |ys| > 0
    ensures Implode(sep, xs + ys) == Implode(sep, xs) + sep + Implode(sep, ys)
    decreases |ys|
  {
    var all := xs + ys;
    assert all[..|all| - 1] == xs + ys[..|ys| - 1];
    if |ys| == 1 {
      assert all[..|all| - 1] == xs;
    } else {
      ImplodeConcat(sep, xs, ys[..|ys| - 1]);
    }
  }

  /** The last part ends the imploded string. */
  lemma ImplodeEndsWithLast(sep: string, parts: seq<string>)
    requires |parts| > 0
    ensures |Implode(sep, parts)| >= |parts[|parts| - 1]|
    ensures Implode(sep, parts)[|Implode(sep, parts)| - |parts[|parts| - 1]|..] == parts[|parts| - 1]
  {
  }
}
