/**
 * String helpers that stand in for the JavaScript string operations used by
 * the task route (`Array.prototype.join` on an issue path) and the shortcut
 * hook (`join` of the help-text parts, `String.prototype.includes` on the
 * platform, and the ASCII part of `toLowerCase` / `toUpperCase`).
 */
module Strings {

  /** `parts.join(sep)`: the parts with `sep` between neighbours. */
  function Join(parts: seq<string>, sep: string): (r: string)
    ensures parts == [] ==> r == ""
    ensures |parts| == 1 ==> r == parts[0]
  {
    if parts == [] then ""
    else if |parts| == 1 then parts[0]
    else parts[0] + sep + Join(parts[1..], sep)
  }

  /** Joining a non-empty list after a prefix part puts the separator right after it. */
  lemma {:induction false} JoinCons(p: string, rest: seq<string>, sep: string)
    requires rest != []
    ensures Join([p] + rest, sep) == p + sep + Join(rest, sep)
  {
    assert ([p] + rest)[1..] == rest;
  }

  /** What an optional part (at most one element) puts in front of the rest of a join. */
  function OptionalPrefix(part: seq<string>, sep: string): string
  {
    if part == [] then "" else part[0] + sep
  }

  /** Putting at most one part before a non-empty list: that part and the separator come first. */
  lemma {:induction false} JoinOptional(part: seq<string>, rest: seq<string>, sep: string)
    requires |part| <= 1 && rest != []
    ensures Join(part + rest, sep) == OptionalPrefix(part, sep) + Join(rest, sep)
  {
    if part != [] {
      assert part + rest == [part[0]] + rest;
      JoinCons(part[0], rest, sep);
    } else {
      assert part + rest == rest;
    }
  }

  /** Joining two optional parts and a last part. */
  lemma {:induction false} JoinAfterTwoOptionals(a: seq<string>, b: seq<string>, last: string, sep: string)
    requires |a| <= 1 && |b| <= 1
    ensures Join(a + (b + [last]), sep) == OptionalPrefix(a, sep) + (OptionalPrefix(b, sep) + last)
  {
    JoinOptional(b, [last], sep);
    JoinOptional(a, b + [last], sep);
  }

  /** Joining three optional parts and a last part: each present part is followed by the separator. */
  lemma {:induction false} JoinAfterOptionals(a: seq<string>, b: seq<string>, c: seq<string>, last: string, sep: string)
    requires |a| <= 1 && |b| <= 1 && |c| <= 1
    ensures Join(a + b + c + [last], sep) == OptionalPrefix(a, sep) + OptionalPrefix(b, sep) + OptionalPrefix(c, sep) + last
  {
    var rest := b + (c + [last]);
    assert a + b + c + [last] == a + rest;
    JoinAfterTwoOptionals(b, c, last, sep);
    JoinOptional(a, rest, sep);
  }

  /** `hay.includes(needle)`: `needle` occurs somewhere in `hay`. */
  predicate Contains(hay: string, needle: string)
    decreases |hay|
  {
    needle <= hay || (hay != [] && Contains(hay[1..], needle))
  }

  /** The ASCII part of `toLowerCase` on one character; other characters are kept. */
  function LowerChar(c: char): (r: char)
    ensures 'A' <= c <= 'Z' ==> 'a' <= r <= 'z' && r as int - c as int == 32
    ensures !('A' <= c <= 'Z') ==> r == c
  {
    if 'A' <= c <= 'Z' then (c as int + 32) as char else c
  }

  /** The ASCII part of `toUpperCase` on one character; other characters are kept. */
  function UpperChar(c: char): (r: char)
    ensures 'a' <= c <= 'z' ==> 'A' <= r <= 'Z' && c as int - r as int == 32
    ensures !('a' <= c <= 'z') ==> r == c
  {
    if 'a' <= c <= 'z' then (c as int - 32) as char else c
  }

  /** `s.toLowerCase()`, restricted to ASCII letters. */
  function Lower(s: string): (r: string)
    ensures |r| == |s|
    ensures forall i :: 0 <= i < |s| ==> r[i] == LowerChar(s[i])
  {
    seq(|s|, i requires 0 <= i < |s| => LowerChar(s[i]))
  }
}
