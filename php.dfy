/** The parts of the PHP runtime that both request handlers rely on: nullable
    values, the request superglobals, `trim` with its default character list,
    and PHP's truthiness of the values the handlers test with `if`. */
module Php {

  /** A PHP value that may be `null`. */
  datatype Option<+T> = None | Some(value: T)

  /** What a handler reads from the request: `$_SERVER["REQUEST_METHOD"]`,
      the query-string parameters `$_GET` and the form fields `$_POST`. */
  datatype Request = Request(verb: string, query: map<string, string>, form: map<string, string>)

  /** The characters `trim` strips by default: space, tab, line feed,
      carriage return, NUL and vertical tab. */
  const TrimChars: set<char> := {' ', '\t', '\n', '\r', 0 as char, 11 as char}

  /** Every character of `s` is one that trim strips. */
  predicate Blank(s: string)
  {
    forall i :: 0 <= i < |s| ==> s[i] in TrimChars
  }

  /** The index of the first character at or after `from` that trim keeps:
      everything from `from` up to it is stripped. */
  function KeptFrom(s: string, from: nat): (lo: nat)
    requires from <= |s|
    ensures from <= lo <= |s|
    ensures forall k :: from <= k < lo ==> s[k] in TrimChars
    ensures lo == |s| || s[lo] !in TrimChars
    decreases |s| - from
  {
    if from < |s| && s[from] in TrimChars then KeptFrom(s, from + 1) else from
  }

  /** The index just past the last character before `stop`, and not before
      `lo`, that trim keeps: everything from it up to `stop` is stripped. */
  function KeptUntil(s: string, lo: nat, stop: nat): (hi: nat)
    requires lo <= stop <= |s|
    ensures lo <= hi <= stop
    ensures forall k :: hi <= k < stop ==> s[k] in TrimChars
    ensures hi == lo || s[hi - 1] !in TrimChars
    decreases stop
  {
    if lo < stop && s[stop - 1] in TrimChars then KeptUntil(s, lo, stop - 1) else stop
  }

  /** `trim($s)` with the default character list: the part of `s` between
      the leading and the trailing run of TrimChars. */
  function Trim(s: string): (r: string)
    ensures |r| <= |s|
    ensures r == [] || (r[0] !in TrimChars && r[|r| - 1] !in TrimChars)
  {
    var lo := KeptFrom(s, 0);
    s[lo..KeptUntil(s, lo, |s|)]
  }

  /** Trim removes exactly a run of TrimChars at each end and keeps the
      middle of the string as it is. */
  lemma TrimIsSlice(s: string)
    ensures var lo := KeptFrom(s, 0);
      && lo + |Trim(s)| <= |s|
      && Trim(s) == s[lo..lo + |Trim(s)|]
      && Blank(s[..lo])
      && Blank(s[lo + |Trim(s)|..])
  {
    var lo := KeptFrom(s, 0);
    var hi := KeptUntil(s, lo, |s|);
    assert Blank(s[..lo]) by {
      forall k | 0 <= k < lo ensures s[..lo][k] in TrimChars {
        assert s[..lo][k] == s[k];
      }
    }
    assert Blank(s[hi..]) by {
      forall k | 0 <= k < |s| - hi ensures s[hi..][k] in TrimChars {
        assert s[hi..][k] == s[hi + k];
      }
    }
  }

  /** Trim gives back exactly the middle of a value padded with trim
      characters on both sides, when that middle has nothing to strip. */
  lemma TrimOfPadded(a: string, m: string, b: string)
    requires Blank(a) && Blank(b)
    requires m != [] && m[0] !in TrimChars && m[|m| - 1] !in TrimChars
    ensures Trim(a + m + b) == m
  {
    var s := a + m + b;
    var lo := KeptFrom(s, 0);
    assert s[|a|] == m[0];
    assert forall k :: 0 <= k < |a| ==> s[k] == a[k];
    assert lo == |a|;
    var hi := KeptUntil(s, lo, |s|);
    assert s[|a| + |m| - 1] == m[|m| - 1];
    assert forall k :: |a| + |m| <= k < |s| ==> s[k] == b[k - |a| - |m|];
    assert hi == |a| + |m|;
    assert s[lo..hi] == m;
  }

  /** A string with nothing to strip at either end is left unchanged. */
  lemma TrimKeepsClean(s: string)
    requires s == [] || (s[0] !in TrimChars && s[|s| - 1] !in TrimChars)
    ensures Trim(s) == s
  {
  }

  /** Trimming twice is the same as trimming once. */
  lemma TrimIdempotent(s: string)
    ensures Trim(Trim(s)) == Trim(s)
  {
    TrimKeepsClean(Trim(s));
  }

  /** Trim yields the empty string exactly when every character is one that
      trim strips. */
  lemma TrimEmptyIffBlank(s: string)
    ensures Trim(s) == [] <==> Blank(s)
  {
    var lo := KeptFrom(s, 0);
    var hi := KeptUntil(s, lo, |s|);
    if Trim(s) == [] {
      assert lo == hi;
    } else {
      assert s[lo] == Trim(s)[0];
    }
  }

  /** PHP truthiness of a nullable string: `null`, `""` and `"0"` are false,
      every other string is true. */
  predicate IsTruthy(v: Option<string>)
  {
    v.Some? && v.value != "" && v.value != "0"
  }

  /** PHP truthiness of a nullable integer: `null` and `0` are false. */
  predicate IsTruthyInt(v: Option<int>)
  {
    v.Some? && v.value != 0
  }

  /** `isset($params[$key]) ? trim($params[$key]) : null`. */
  function Input(params: map<string, string>, key: string): (v: Option<string>)
    ensures v.None? <==> key !in params
    ensures v.Some? ==> |v.value| <= |params[key]|
    ensures v.Some? ==> v.value == [] || (v.value[0] !in TrimChars && v.value[|v.value| - 1] !in TrimChars)
  {
    if key in params then Some(Trim(params[key])) else None
  }

  /** The parameter `key` was sent and is truthy once trimmed. */
  predicate Filled(params: map<string, string>, key: string)
  {
    key in params && !Blank(params[key]) && Trim(params[key]) != "0"
  }

  /** An input counts as present exactly when it was sent, is not made only
      of blanks, and is not `"0"` once trimmed; so a parameter of blanks, or
      a `"0"` padded with blanks, counts as absent. */
  lemma InputTruthy(params: map<string, string>, key: string)
    ensures IsTruthy(Input(params, key)) <==> Filled(params, key)
  {
    if key in params {
      TrimEmptyIffBlank(params[key]);
    }
  }
}
