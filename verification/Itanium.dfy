/** The name parser of llvm/utils/extract_symbols.py: its regular expressions and what its loops compute. */
module ItaniumSpec {

  datatype Option<T> = None | Some(value: T)

  // The regular expressions. A dot matches anything but a newline, and every match is the first one that
  // backtracking from the longest finds.

  predicate Digit(c: char) { '0' <= c <= '9' }

  predicate InSubstitution(c: char) { 'A' <= c <= 'Z' || Digit(c) }

  predicate Qualifier(c: char) { c in "rVKRO" }

  /** the length of the longest prefix of s within a class */
  function Run(p: char -> bool, s: string): (n: nat)
    ensures n <= |s| && (forall i :: 0 <= i < n ==> p(s[i])) && (n < |s| ==> !p(s[n]))
  {
    if s == "" || !p(s[0]) then 0 else 1 + Run(p, s[1..])
  }

  /** `.*` */
  function Dots(s: string): (r: string)
    ensures |r| <= |s| && r == s[..|r|] && (r == "" <==> s == "" || s[0] == '\n')
    ensures '\n' !in s ==> r == s
  {
    s[..Run(c => c != '\n', s)]
  }

  /** `(\d+)(.+)` */
  function Digits(s: string): (m: Option<(string, string)>)
    ensures m.Some? ==> |m.value.0| > 0 && |m.value.0| + |m.value.1| <= |s|
  {
    var d := Run(Digit, s);
    if d == 0 then None
    else if Dots(s[d..]) != "" then Some((s[..d], Dots(s[d..])))
    else if d >= 2 then Some((s[..d - 1], s[d - 1..d]))
    else None
  }

  /** `S[A-Z0-9]*_(.+)`: what follows a substitution */
  function AfterSubstitution(s: string): (m: Option<string>)
    ensures m.Some? ==> m.value != "" && |m.value| < |s|
  {
    if s == "" || s[0] != 'S' then None
    else
      var n := 1 + Run(InSubstitution, s[1..]);
      if n < |s| && s[n] == '_' && Dots(s[n + 1..]) != "" then Some(Dots(s[n + 1..])) else None
  }

  /** `[rVKRO]*(.+)`, or the string itself if that does not match */
  function AfterQualifiers(s: string): (r: string)
    ensures |r| <= |s|
  {
    var q := Run(Qualifier, s);
    if Dots(s[q..]) != "" then Dots(s[q..])
    else if q >= 1 then s[q - 1..q]
    else s
  }

  /** the last place from k down to 1 where `.+` can start */
  function LastStart(s: string, k: nat): (r: nat)
    requires k <= |s|
    ensures r <= k && (r > 0 ==> r < |s| && s[r] != '\n')
    ensures 0 < k < |s| && s[k] != '\n' ==> r == k
  {
    if k == 0 then 0 else if k < |s| && s[k] != '\n' then k else LastStart(s, k - 1)
  }

  function Value(digits: string): nat {
    if digits == "" || !Digit(digits[|digits| - 1]) then 0
    else 10 * Value(digits[..|digits| - 1]) + (digits[|digits| - 1] - '0') as nat
  }

  function Take(s: string, n: nat): string { if n < |s| then s[..n] else s }

  function Drop(s: string, n: nat): string { if n < |s| then s[n..] else "" }

  /** parse_itanium_name: the name and the rest, no name if it cannot tell: lines 224-241 */
  function ParseName(arg: string): (r: (Option<string>, string))
    ensures r.0.Some? ==> r.0.value != "" && |r.1| < |arg|
    ensures r.0.None? ==> r.1 == arg
  {
    var digits := Digits(arg);
    if digits.Some? then
      var n := Value(digits.value.0);
      (Some(digits.value.0 + Take(digits.value.1, n)), Drop(digits.value.1, n))
    else if |arg| >= 3 && arg[0] in "CD" && arg[1] in "123" && arg[2] != '\n' then
      (Some(arg[..2]), Dots(arg[2..]))
    else
      var k := LastStart(arg, Run(c => c != 'E', arg));
      if k > 0 then (Some(arg[..k]), Dots(arg[k..])) else (None, arg)
  }

  // What the two loops return: the rest, None, or TooComplexName.

  datatype Skipped = Rest(rest: string) | NoRest | TooComplex

  datatype Parsed = Names(names: seq<(string, bool)>, rest: string) | NoNames | NestedTooComplex

  /** skip_itanium_template's loop on tmp: lines 250-275. Every turn leaves a shorter string. */
  function Skip(tmp: string): (r: Skipped)
    ensures r.Rest? ==> |r.rest| < |tmp|
    decreases |tmp|, 1
  {
    if tmp == "" then NoRest
    else
      var digits, substitution := Digits(tmp), AfterSubstitution(tmp);
      if digits.Some? then Skip(Drop(digits.value.1, Value(digits.value.0)))
      else if substitution.Some? then Skip(substitution.value)
      else if tmp[0] == 'I' then
        var r := Skip(tmp[1..]);
        if r.Rest? then Skip(r.rest) else r
      else if tmp[0] == 'N' then
        match ParseNested(tmp)
        case Names(_, rest) => Skip(rest)
        case NoNames => NoRest
        case NestedTooComplex => TooComplex
      else if tmp[0] == 'L' || tmp[0] == 'X' then TooComplex
      else if tmp[0] == 'E' then Rest(tmp[1..])
      else Skip(tmp[1..])
  }

  /** parse_itanium_nested_name up to its loop: lines 280-297 */
  function Enter(arg: string): (tmp: string)
    requires arg != "" && arg[0] == 'N'
    ensures |tmp| < |arg|
  {
    var substitution := AfterSubstitution(arg[1..]);
    AfterQualifiers(if substitution.Some? then substitution.value else arg[1..])
  }

  function ParseNested(arg: string): (r: Parsed)
    requires arg != "" && arg[0] == 'N'
    ensures r.Names? ==> |r.rest| < |arg|
    decreases |arg|, 0
  {
    Components([], Enter(arg))
  }

  /** its loop, with what it has collected: lines 299-318 */
  function Components(names: seq<(string, bool)>, tmp: string): (r: Parsed)
    ensures r.Names? ==> |r.rest| < |tmp|
    decreases |tmp|, 0
  {
    if tmp == "" then NoNames
    else if tmp[0] == 'E' then Names(names, tmp[1..])
    else
      var (name, rest) := ParseName(tmp);
      if name.None? then NoNames
      else if rest != "" && rest[0] == 'I' then
        match Skip(rest[1..])
        case Rest(after) => Components(names + [(name.value, true)], after)
        case NoRest => NoNames
        case TooComplex => NestedTooComplex
      else Components(names + [(name.value, false)], rest)
  }
}

/** The parser as extract_symbols.py writes it, with its loops. */
module ItaniumParser {
  import opened ItaniumSpec

  /** skip_itanium_template: lines 246-276 */
  method SkipTemplate(arg: string) returns (r: Skipped)
    requires arg != "" && arg[0] == 'I'
    ensures r == Skip(arg[1..])
    decreases |arg|
  {
    var tmp := arg[1..];
    while tmp != ""
      invariant |tmp| < |arg| && Skip(arg[1..]) == Skip(tmp)
      decreases |tmp|
    {
      var digits, substitution := Digits(tmp), AfterSubstitution(tmp);
      if digits.Some? {
        tmp := Drop(digits.value.1, Value(digits.value.0));
        continue;
      }
      if substitution.Some? {
        tmp := substitution.value;
      } else if tmp[0] == 'I' {
        r := SkipTemplate(tmp);
        if !r.Rest? {
          return;
        }
        tmp := r.rest;
      } else if tmp[0] == 'N' {
        var nested := ParseNestedName(tmp);
        match nested {
          case Names(_, rest) => tmp := rest;
          case NoNames => return NoRest;
          case NestedTooComplex => return TooComplex;
        }
      } else if tmp[0] == 'L' || tmp[0] == 'X' {
        return TooComplex;
      } else if tmp[0] == 'E' {
        return Rest(tmp[1..]);
      } else {
        tmp := tmp[1..];
      }
    }
    return NoRest;
  }

  /** parse_itanium_nested_name: lines 280-318 */
  method ParseNestedName(arg: string) returns (r: Parsed)
    requires arg != "" && arg[0] == 'N'
    ensures r == ParseNested(arg)
    decreases |arg|
  {
    var ret := [];
    var tmp := Enter(arg);
    while tmp != ""
      invariant |tmp| < |arg| && ParseNested(arg) == Components(ret, tmp)
      decreases |tmp|
    {
      if tmp[0] == 'E' {
        return Names(ret, tmp[1..]);
      }
      var (name, rest) := ParseName(tmp);
      if name.None? {
        return NoNames;
      }
      var isTemplate := false;
      if rest != "" && rest[0] == 'I' {
        var skipped := SkipTemplate(rest);
        match skipped {
          case Rest(after) => rest := after;
          case NoRest => return NoNames;
          case TooComplex => return NestedTooComplex;
        }
        isTemplate := true;
      }
      ret := ret + [(name.value, isTemplate)];
      tmp := rest;
    }
    return NoNames;
  }
}
