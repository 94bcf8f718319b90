/**
  The fragment of JavaScript regular expressions that the property form's
  phone rule uses: a pattern anchored at both ends (`^…$`) made of an optional
  literal character (`\+?`), a character range (`[1-9]`) and a bounded
  repetition of a range (`\d{1,14}`, where `\d` is `[0-9]`). `Match` is the
  backtracking semantics of `RegExp.prototype.test` for such a pattern: some
  way of consuming the whole input with the atoms in order.
 */
module Pattern {

  datatype Atom =
    | Optional(c: char)                              // c?
    | Range(lo: char, hi: char)                      // [lo-hi]
    | Repeat(lo: char, hi: char, min: nat, max: nat) // [lo-hi]{min,max}

  /** The whole of `s` is matched by the atoms of `p`, in order. */
  predicate Match(p: seq<Atom>, s: string)
    decreases |p|, |s|, 1
  {
    if |p| == 0 then |s| == 0
    else match p[0]
      case Optional(c) => (|s| > 0 && s[0] == c && Match(p[1..], s[1..])) || Match(p[1..], s)
      case Range(lo, hi) => |s| > 0 && lo <= s[0] <= hi && Match(p[1..], s[1..])
      case Repeat(lo, hi, min, max) => RepeatMatch(lo, hi, min, max, p[1..], s)
  }

  /** Between `min` and `max` characters of `[lo-hi]`, then the atoms `rest`, consume all of `s`. */
  predicate RepeatMatch(lo: char, hi: char, min: nat, max: nat, rest: seq<Atom>, s: string)
    decreases |rest| + 1, |s|, 0
  {
    || (min == 0 && Match(rest, s))
    || (&& max > 0 && |s| > 0 && lo <= s[0] <= hi
        && RepeatMatch(lo, hi, if min == 0 then 0 else min - 1, max - 1, rest, s[1..]))
  }

  predicate InRange(s: string, lo: char, hi: char) {
    forall k :: 0 <= k < |s| ==> lo <= s[k] <= hi
  }

  /** A repetition that ends the pattern matches exactly the strings of allowed length drawn from its range. */
  lemma {:induction false} RepeatAtEnd(lo: char, hi: char, min: nat, max: nat, s: string)
    ensures RepeatMatch(lo, hi, min, max, [], s) <==> min <= |s| <= max && InRange(s, lo, hi)
    decreases |s|
  {
    if |s| > 0 && max > 0 {
      RepeatAtEnd(lo, hi, if min == 0 then 0 else min - 1, max - 1, s[1..]);
      if InRange(s, lo, hi) {
        assert InRange(s[1..], lo, hi);
      }
      if lo <= s[0] <= hi && InRange(s[1..], lo, hi) {
        forall k | 0 <= k < |s| ensures lo <= s[k] <= hi {
          if k > 0 {
            assert s[k] == s[1..][k - 1];
          }
        }
      }
    }
  }
}
