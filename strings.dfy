/** Optional values: JavaScript `null`/`undefined` and Ruby `nil` become `None`. */
module Wrappers {
  datatype Option<+T> = None | Some(value: T)
}

/**
 * The handful of JavaScript and Ruby string built-ins the profile views and the
 * skin migration rely on: `String.prototype.trim`, `String.prototype.split` with a
 * one-character separator, `String.prototype.includes`, JavaScript truthiness of a
 * nullable string, and ActiveSupport's `present?`/`blank?`.
 */
module Strings {
  import opened Wrappers

  /** The characters `String.prototype.trim` removes: WhiteSpace and LineTerminator of ECMA-262. */
  predicate IsJsWhitespace(c: char)
  {
    c == '\t' || c == '\n' || c == '\U{000B}' || c == '\U{000C}' || c == '\r' || c == ' ' ||
    c == '\U{00A0}' || c == '\U{1680}' || ('\U{2000}' <= c <= '\U{200A}') ||
    c == '\U{2028}' || c == '\U{2029}' || c == '\U{202F}' || c == '\U{205F}' || c == '\U{3000}' ||
    c == '\U{FEFF}'
  }

  /** The characters of Ruby's `[[:space:]]` class (Unicode White_Space), used by `blank?`. */
  predicate IsRubySpace(c: char)
  {
    ('\t' <= c <= '\r') || c == ' ' || c == '\U{0085}' || c == '\U{00A0}' || c == '\U{1680}' ||
    ('\U{2000}' <= c <= '\U{200A}') || c == '\U{2028}' || c == '\U{2029}' || c == '\U{202F}' ||
    c == '\U{205F}' || c == '\U{3000}'
  }

  /** Every character of `s` is whitespace in the JavaScript sense. */
  predicate AllJsWhitespace(s: string)
  {
    forall i :: 0 <= i < |s| ==> IsJsWhitespace(s[i])
  }

  /** Drops leading whitespace: the result is a suffix of `s` that does not start with whitespace. */
  function TrimStart(s: string): (r: string)
    ensures |r| <= |s| && r == s[|s| - |r|..]
    ensures r == [] || !IsJsWhitespace(r[0])
    ensures AllJsWhitespace(s[..|s| - |r|])
    decreases |s|
  {
    if |s| > 0 && IsJsWhitespace(s[0]) then
      var r := TrimStart(s[1..]);
      assert s[..|s| - |r|] == [s[0]] + s[1..][..|s[1..]| - |r|];
      r
    else s
  }

  /** Drops trailing whitespace: the result is a prefix of `s` that does not end with whitespace. */
  function TrimEnd(s: string): (r: string)
    ensures |r| <= |s| && r == s[..|r|]
    ensures r == [] || !IsJsWhitespace(r[|r| - 1])
    ensures AllJsWhitespace(s[|r|..])
    decreases |s|
  {
    if |s| > 0 && IsJsWhitespace(s[|s| - 1]) then
      var r := TrimEnd(s[..|s| - 1]);
      assert s[|r|..] == s[..|s| - 1][|r|..] + [s[|s| - 1]];
      r
    else s
  }

  /**
   * `String.prototype.trim`: the slice of `s` left after dropping leading and then
   * trailing whitespace; it neither starts nor ends with whitespace, and everything
   * dropped is whitespace.
   */
  function Trim(s: string): (r: string)
    ensures var k := |s| - |TrimStart(s)|;
      k + |r| <= |s| && r == s[k..k + |r|] &&
      AllJsWhitespace(s[..k]) && AllJsWhitespace(s[k + |r|..]) &&
      (r == [] || (!IsJsWhitespace(r[0]) && !IsJsWhitespace(r[|r| - 1])))
  {
    var t := TrimStart(s);
    var r := TrimEnd(t);
    SliceOfSlice(s, t, r);
    r
  }

  /**
   * A prefix `r` of a suffix `t` of `s`, where what `t` drops from `s` and what `r`
   * drops from `t` is whitespace, is a slice of `s` with only whitespace around it.
   */
  lemma SliceOfSlice(s: string, t: string, r: string)
    requires |t| <= |s| && t == s[|s| - |t|..] && AllJsWhitespace(s[..|s| - |t|])
    requires |r| <= |t| && r == t[..|r|] && AllJsWhitespace(t[|r|..])
    ensures var k := |s| - |t|;
      k + |r| <= |s| && r == s[k..k + |r|] && AllJsWhitespace(s[..k]) && AllJsWhitespace(s[k + |r|..])
  {
    var k := |s| - |t|;
    assert s[k + |r|..] == t[|r|..];
  }

  /** `s.trim().length === 0` holds exactly when `s` is made of whitespace only (or is empty). */
  lemma TrimEmptyIff(s: string)
    ensures |Trim(s)| == 0 <==> AllJsWhitespace(s)
  {
  }

  /** JavaScript truthiness of a `string | null`: present and not the empty string. */
  predicate Truthy(s: Option<string>)
    ensures Truthy(s) <==> s.Some? && |s.value| > 0
  {
    s.Some? && s.value != ""
  }

  /** ActiveSupport's `present?` on a `String` or `nil`: not nil and not only `[[:space:]]`. */
  predicate RubyPresent(s: Option<string>)
    ensures RubyPresent(s) ==> Truthy(s)
    ensures s.None? ==> !RubyPresent(s)
    ensures s.Some? ==> (!RubyPresent(s) <==> forall i :: 0 <= i < |s.value| ==> IsRubySpace(s.value[i]))
  {
    s.Some? && exists i :: 0 <= i < |s.value| && !IsRubySpace(s.value[i])
  }

  /**
   * `s.split(sep)` for a one-character separator: the pieces between occurrences
   * of `sep`, in order; the empty string splits into one empty piece.
   */
  function Split(s: string, sep: char): (r: seq<string>)
    ensures |r| >= 1
    ensures forall k :: 0 <= k < |r| ==> sep !in r[k]
    decreases |s|
  {
    if |s| == 0 then [""]
    else if s[0] == sep then [""] + Split(s[1..], sep)
    else
      var rest := Split(s[1..], sep);
      [[s[0]] + rest[0]] + rest[1..]
  }

  /** `parts.join(sep)`, the inverse of `Split`. */
  function Join(parts: seq<string>, sep: char): string
    requires |parts| >= 1
    decreases |parts|
  {
    if |parts| == 1 then parts[0] else parts[0] + [sep] + Join(parts[1..], sep)
  }

  /** Joining the pieces with the separator gives back the original string. */
  lemma {:induction false} JoinSplit(s: string, sep: char)
    ensures Join(Split(s, sep), sep) == s
    decreases |s|
  {
    if |s| == 0 {
    } else if s[0] == sep {
      JoinSplit(s[1..], sep);
      var rest := Split(s[1..], sep);
      assert Split(s, sep) == [""] + rest;
      assert Split(s, sep)[1..] == rest;
    } else {
      JoinSplit(s[1..], sep);
      var rest := Split(s[1..], sep);
      var r := Split(s, sep);
      assert r[0] == [s[0]] + rest[0] && r[1..] == rest[1..];
      if |rest| == 1 {
      } else {
        assert Join(rest, sep) == rest[0] + [sep] + Join(rest[1..], sep);
        assert Join(r, sep) == [s[0]] + rest[0] + [sep] + Join(rest[1..], sep);
      }
    }
  }

  /** Splitting pieces that do not contain the separator, once joined, recovers them. */
  lemma {:induction false} SplitJoin(parts: seq<string>, sep: char)
    requires |parts| >= 1
    requires forall k :: 0 <= k < |parts| ==> sep !in parts[k]
    ensures Split(Join(parts, sep), sep) == parts
    decreases |parts|, |parts[0]|
  {
    var p := parts[0];
    if |p| == 0 {
      if |parts| == 1 {
      } else {
        SplitJoin(parts[1..], sep);
        var j := Join(parts, sep);
        assert j == [sep] + Join(parts[1..], sep);
        assert j[1..] == Join(parts[1..], sep);
        assert parts == [""] + parts[1..];
      }
    } else {
      var tail := [p[1..]] + parts[1..];
      assert tail[1..] == parts[1..];
      forall k | 0 <= k < |tail| ensures sep !in tail[k] {
        if k == 0 {
          assert forall c :: c in p[1..] ==> c in p;
        }
      }
      SplitJoin(tail, sep);
      var j := Join(parts, sep);
      assert Join(tail, sep) == j[1..] by {
        if |parts| == 1 {
        } else {
          assert j == p + [sep] + Join(parts[1..], sep);
          assert Join(tail, sep) == p[1..] + [sep] + Join(parts[1..], sep);
        }
      }
      assert j[0] == p[0];
      assert j[0] != sep by { assert p[0] in p; }
      assert p == [p[0]] + p[1..];
      assert parts == [[p[0]] + tail[0]] + tail[1..];
    }
  }

  /** A string splits into a single piece exactly when it does not contain the separator. */
  lemma {:induction false} SplitSingleIff(s: string, sep: char)
    ensures |Split(s, sep)| == 1 <==> sep !in s
    ensures sep !in s ==> Split(s, sep) == [s]
    decreases |s|
  {
    if |s| == 0 {
    } else if s[0] == sep {
      assert sep in s;
    } else {
      SplitSingleIff(s[1..], sep);
      assert s == [s[0]] + s[1..];
      assert sep in s <==> sep in s[1..];
    }
  }

  /** A leading piece free of the separator splits off as the first piece. */
  lemma {:induction false} SplitConcat(u: string, sep: char, w: string)
    requires sep !in u
    ensures Split(u + [sep] + w, sep) == [u] + Split(w, sep)
    decreases |u|
  {
    var s := u + [sep] + w;
    if |u| == 0 {
      assert s == [sep] + w;
      assert s[1..] == w;
    } else {
      assert u[0] in u;
      assert s[1..] == u[1..] + [sep] + w;
      assert sep !in u[1..] by { assert forall c :: c in u[1..] ==> c in u; }
      SplitConcat(u[1..], sep, w);
      assert u == [u[0]] + u[1..];
    }
  }
}
