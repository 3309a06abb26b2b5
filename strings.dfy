/**
 * JavaScript's `String.prototype.split` with a one-character separator, as
 * used on `"host:port"` strings, and the field it yields.
 */
module Strings {
  import opened Options

  /**
   * `s.split(sep)`: the maximal separator-free pieces of `s`, in order.
   * There is always at least one piece, and no piece holds the separator.
   */
  function Split(s: string, sep: char): (parts: seq<string>)
    ensures |parts| >= 1
    ensures forall i :: 0 <= i < |parts| ==> sep !in parts[i]
    decreases |s|
  {
    if |s| == 0 then [""]
    else
      var rest := Split(s[1..], sep);
      if s[0] == sep then [""] + rest
      else [[s[0]] + rest[0]] + rest[1..]
  }

  /** The inverse of Split: the pieces glued back with the separator. */
  function Join(parts: seq<string>, sep: char): string
    requires |parts| >= 1
    decreases |parts|
  {
    if |parts| == 1 then parts[0] else parts[0] + [sep] + Join(parts[1..], sep)
  }

  /** `f` is the text of `s` up to (not including) the first `sep`, or all of `s`. */
  predicate LeadingField(s: string, sep: char, f: string) {
    && |f| <= |s|
    && f == s[..|f|]
    && sep !in f
    && (|f| == |s| || s[|f|] == sep)
  }

  /**
   * `host` and `port` are what `hp.split(':')[0]` and `hp.split(':')[1]`
   * denote: the text before the first colon, and (when there is a colon)
   * the text between it and the next colon or the end.
   */
  predicate HostPort(hp: string, host: string, port: Option<string>)
  {
    && LeadingField(hp, ':', host)
    && (port.Some? <==> |host| < |hp|)
    && (port.Some? ==> LeadingField(hp[|host| + 1..], ':', port.value))
  }

  /** Splitting and joining again gives back the original string. */
  lemma {:induction false} JoinSplit(s: string, sep: char)
    ensures Join(Split(s, sep), sep) == s
    decreases |s|
  {
    if |s| > 0 {
      var rest := Split(s[1..], sep);
      JoinSplit(s[1..], sep);
      if s[0] == sep {
        assert Split(s, sep)[1..] == rest;
      } else {
        var parts := Split(s, sep);
        if |rest| == 1 {
          assert parts == [[s[0]] + rest[0]];
        } else {
          assert parts[1..] == rest[1..];
          assert Join(parts, sep) == [s[0]] + rest[0] + [sep] + Join(rest[1..], sep);
        }
      }
    }
  }

  /**
   * The first piece is the leading field; there is a second piece exactly
   * when `s` holds the separator, and then the remaining pieces are the
   * split of what follows the first separator.
   */
  lemma {:induction false} SplitFirst(s: string, sep: char)
    ensures LeadingField(s, sep, Split(s, sep)[0])
    ensures |Split(s, sep)| > 1 <==> sep in s
    ensures |Split(s, sep)| > 1 ==>
      Split(s, sep)[1..] == Split(s[|Split(s, sep)[0]| + 1..], sep)
    decreases |s|
  {
    if |s| > 0 {
      var rest := Split(s[1..], sep);
      SplitFirst(s[1..], sep);
      if s[0] == sep {
      } else {
        var f := [s[0]] + rest[0];
        assert s == [s[0]] + s[1..];
        if |rest| > 1 {
          assert s[|f| + 1..] == s[1..][|rest[0]| + 1..];
        }
      }
    }
  }

  /** `hp.split(':')[0]` and `hp.split(':')[1]` (undefined when absent). */
  function SplitHostPort(hp: string): (r: (string, Option<string>))
    ensures HostPort(hp, r.0, r.1)
  {
    var parts := Split(hp, ':');
    SplitFirst(hp, ':');
    if |parts| > 1 then
      SplitFirst(hp[|parts[0]| + 1..], ':');
      (parts[0], Some(parts[1]))
    else (parts[0], None)
  }
}
