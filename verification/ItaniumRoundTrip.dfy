/** Parsing undoes printing, for the names that extract_symbols.py is meant to read (Itanium C++ ABI, section 5.1). */
module ItaniumRoundTrip {
  import opened ItaniumSpec

  /** a template argument: a source name, a substitution, a builtin type, a nested name, or the argument list of
      the name or substitution before it */
  datatype Arg =
    | Source(id: string)
    | Substitution(seqId: string)
    | Builtin(letter: char)
    | Nested(prefix: Prefix, comps: Comps)
    | List(args: Args)

  datatype Args = End | More(head: Arg, tail: Args)

  /** an identifier, or a constructor (C1, C2, C3) or destructor (D1, ...) */
  datatype Name = Ident(id: string) | Structor(letter: char, digit: char)

  /** the components of a nested name, each with or without template arguments */
  datatype Comps = Done | Comp(name: Name, args: Option<Args>, next: Comps)

  /** what may precede them: a substitution, then qualifiers */
  datatype Prefix = Prefix(substitution: Option<string>, qualifiers: string)

  predicate ValidId(id: string) {
    id != "" && !Digit(id[0]) && '\n' !in id
  }

  predicate ValidName(name: Name) {
    match name
    case Ident(id) => ValidId(id)
    case Structor(letter, digit) => (letter == 'C' || letter == 'D') && '1' <= digit <= '3'
  }

  predicate ValidSeqId(s: string) {
    forall i :: 0 <= i < |s| ==> InSubstitution(s[i])
  }

  predicate ValidPrefix(p: Prefix) {
    && (p.substitution.Some? ==> ValidSeqId(p.substitution.value))
    && (forall i :: 0 <= i < |p.qualifiers| ==> Qualifier(p.qualifiers[i]))
  }

  predicate ValidArg(a: Arg) {
    match a
    case Source(id) => ValidId(id)
    case Substitution(seqId) => ValidSeqId(seqId)
    case Builtin(letter) => ValidLetter(letter)
    case Nested(prefix, comps) => ValidPrefix(prefix) && ValidComps(comps)
    case List(args) => ValidArgs(args)
  }

  /** a type of one letter, or a letter that changes the type after it */
  predicate ValidLetter(c: char) { !Digit(c) && c !in "SINLXE\n" }

  predicate ValidArgs(args: Args) {
    match args
    case End => true
    case More(head, tail) => ValidArg(head) && ValidArgs(tail)
  }

  predicate ValidComps(comps: Comps) {
    match comps
    case Done => true
    case Comp(name, args, next) => ValidName(name) && (args.Some? ==> ValidArgs(args.value)) && ValidComps(next)
  }

  function Decimal(n: nat): (s: string)
    ensures s != "" && forall i :: 0 <= i < |s| ==> Digit(s[i])
  {
    if n < 10 then ['0' + n as char] else Decimal(n / 10) + ['0' + (n % 10) as char]
  }

  function PrintId(id: string): string { Decimal(|id|) + id }

  function PrintName(name: Name): string {
    match name
    case Ident(id) => PrintId(id)
    case Structor(letter, digit) => [letter, digit]
  }

  function PrintSubstitution(seqId: string): string { "S" + seqId + "_" }

  function PrintPrefix(p: Prefix): string {
    (if p.substitution.Some? then PrintSubstitution(p.substitution.value) else "") + p.qualifiers
  }

  function PrintArg(a: Arg): string {
    match a
    case Source(id) => PrintId(id)
    case Substitution(seqId) => PrintSubstitution(seqId)
    case Builtin(letter) => [letter]
    case Nested(prefix, comps) => "N" + PrintPrefix(prefix) + PrintComps(comps)
    case List(args) => "I" + PrintArgs(args)
  }

  /** with the closing E */
  function PrintArgs(args: Args): string {
    match args
    case End => "E"
    case More(head, tail) => PrintArg(head) + PrintArgs(tail)
  }

  /** with the closing E */
  function PrintComps(comps: Comps): string {
    match comps
    case Done => "E"
    case Comp(name, args, next) => PrintName(name) + (if args.Some? then "I" + PrintArgs(args.value) else "") + PrintComps(next)
  }

  function PrintNested(prefix: Prefix, comps: Comps): string {
    "N" + PrintPrefix(prefix) + PrintComps(comps)
  }

  /** what the parser is to find */
  function Listing(comps: Comps): seq<(string, bool)> {
    match comps
    case Done => []
    case Comp(name, args, next) => [(PrintName(name), args.Some?)] + Listing(next)
  }

  // The pieces.

  lemma {:induction false} RunIs(p: char -> bool, s: string, n: nat)
    requires n <= |s| && (forall i :: 0 <= i < n ==> p(s[i])) && (n < |s| ==> !p(s[n]))
    ensures Run(p, s) == n
  {
    if n > 0 {
      RunIs(p, s[1..], n - 1);
    }
  }

  lemma {:induction false} ValueOfDecimal(n: nat)
    ensures Value(Decimal(n)) == n
  {
    var s := Decimal(n);
    if n < 10 {
      assert s[..|s| - 1] == "";
    } else {
      ValueOfDecimal(n / 10);
      assert s[..|s| - 1] == Decimal(n / 10);
    }
  }

  lemma ReadDigits(d: string, t: string)
    requires d != "" && (forall i :: 0 <= i < |d| ==> Digit(d[i])) && t != "" && !Digit(t[0]) && '\n' !in t
    ensures Digits(d + t) == Some((d, t))
  {
    RunIs(Digit, d + t, |d|);
    assert (d + t)[..|d|] == d && (d + t)[|d|..] == t;
  }

  lemma Split(id: string, rest: string)
    ensures Take(id + rest, |id|) == id && Drop(id + rest, |id|) == rest
  {
    if rest == "" {
      assert id + rest == id;
    } else {
      assert (id + rest)[..|id|] == id && (id + rest)[|id|..] == rest;
    }
  }

  /** Reading a printed identifier. */
  lemma ReadId(id: string, rest: string)
    requires ValidId(id) && '\n' !in rest
    ensures Digits(PrintId(id) + rest) == Some((Decimal(|id|), id + rest))
    ensures Value(Decimal(|id|)) == |id| && Take(id + rest, |id|) == id && Drop(id + rest, |id|) == rest
  {
    assert PrintId(id) + rest == Decimal(|id|) + (id + rest);
    ReadDigits(Decimal(|id|), id + rest);
    ValueOfDecimal(|id|);
    Split(id, rest);
  }

  /** Reading a printed name that something follows. */
  lemma ReadName(name: Name, rest: string)
    requires ValidName(name) && rest != "" && '\n' !in rest
    ensures ParseName(PrintName(name) + rest) == (Some(PrintName(name)), rest)
  {
    match name {
      case Ident(id) =>
        ReadId(id, rest);
      case Structor(letter, digit) =>
        var s := [letter, digit] + rest;
        assert s[0] == letter && s[1] == digit && s[2..] == rest && s[..2] == [letter, digit];
        assert Digits(s) == None;
        assert digit == '1' || digit == '2' || digit == '3';
    }
  }

  /** Reading an operator's name, which the parser takes to be all before the E that ends the nested name. */
  lemma ReadOperator(op: string, rest: string)
    requires op != "" && 'E' !in op && !Digit(op[0]) && !(op[0] in "CD" && |op| >= 2 && op[1] in "123") && '\n' !in rest
    ensures ParseName(op + ("E" + rest)) == (Some(op), "E" + rest)
  {
    var s := op + ("E" + rest);
    RunIs(c => c != 'E', s, |op|);
    assert s[..|op|] == op && s[|op|..] == "E" + rest;
    assert Digits(s) == None;
    assert s[0] == op[0] && (|op| >= 2 ==> s[1] == op[1]) && (|op| == 1 ==> s[1] == 'E');
    assert s[|op|] == 'E';
  }

  /** A length that runs past the end takes what there is. */
  lemma ReadCutShort(n: nat, id: string)
    requires ValidId(id) && n >= |id|
    ensures ParseName(Decimal(n) + id) == (Some(Decimal(n) + id), "")
  {
    ReadDigits(Decimal(n), id);
    ValueOfDecimal(n);
  }

  lemma SkipId(id: string, rest: string)
    requires ValidId(id) && '\n' !in rest
    ensures Skip(PrintId(id) + rest) == Skip(rest)
  {
    ReadId(id, rest);
  }

  lemma NameStart(name: Name)
    requires ValidName(name)
    ensures PrintName(name) != "" && '\n' !in PrintName(name)
    ensures Digit(PrintName(name)[0]) || PrintName(name)[0] == 'C' || PrintName(name)[0] == 'D'
  {
    if name.Ident? {
      assert '\n' !in Decimal(|name.id|) && PrintName(name)[0] == Decimal(|name.id|)[0];
    }
  }

  /** extract_symbols.py:200 tells constructors and destructors from other names by their first two characters. */
  lemma StructorsRecognised(name: Name)
    requires ValidName(name)
    ensures var s := PrintName(name); name.Structor? <==> |s| >= 2 && s[0] in "CD" && s[1] in "123"
  {
    NameStart(name);
    match name {
      case Ident(id) => assert PrintName(name)[0] == Decimal(|id|)[0];
      case Structor(letter, digit) => assert digit == '1' || digit == '2' || digit == '3';
    }
  }

  /** One turn of the component loop. */
  lemma OneComponent(names: seq<(string, bool)>, name: Name, rest: string)
    requires ValidName(name) && '\n' !in rest && rest != ""
    ensures rest[0] != 'I' ==> Components(names, PrintName(name) + rest) == Components(names + [(PrintName(name), false)], rest)
    ensures rest[0] == 'I' && Skip(rest[1..]).Rest? ==>
              Components(names, PrintName(name) + rest) == Components(names + [(PrintName(name), true)], Skip(rest[1..]).rest)
  {
    ReadName(name, rest);
    NameStart(name);
    assert (PrintName(name) + rest)[0] == PrintName(name)[0];
  }

  lemma SkipNested(s: string)
    requires s != "" && s[0] == 'N' && ParseNested(s).Names?
    ensures Skip(s) == Skip(ParseNested(s).rest)
  {
    NotSpecial(s);
  }

  lemma SkipList(t: string)
    requires Skip(t).Rest?
    ensures "I" + t == ['I'] + t && Skip("I" + t) == Skip(Skip(t).rest)
  {
    NotSpecial("I" + t);
    assert ("I" + t)[1..] == t;
  }

  lemma SkipBuiltin(letter: char, rest: string)
    requires ValidLetter(letter)
    ensures Skip([letter] + rest) == Skip(rest)
  {
    var s := [letter] + rest;
    assert !Digit(letter) && letter != 'S' && letter != 'I' && letter != 'N' && letter != 'L' && letter != 'X' && letter != 'E';
    NotSpecial(s);
    assert s[0] == letter && s[1..] == rest;
  }

  lemma SkipSubstitution(seqId: string, rest: string)
    requires ValidSeqId(seqId) && rest != "" && '\n' !in rest
    ensures Skip(PrintSubstitution(seqId) + rest) == Skip(rest)
  {
    ReadSubstitution(seqId, rest);
  }

  /** Reading a printed substitution that something follows. */
  lemma ReadSubstitution(seqId: string, rest: string)
    requires ValidSeqId(seqId) && rest != "" && '\n' !in rest
    ensures AfterSubstitution(PrintSubstitution(seqId) + rest) == Some(rest)
    ensures Digits(PrintSubstitution(seqId) + rest) == None
  {
    var s := PrintSubstitution(seqId) + rest;
    assert s[0] == 'S' && s[1..] == seqId + "_" + rest;
    RunIs(InSubstitution, s[1..], |seqId|);
    assert s[|seqId| + 1] == '_' && s[|seqId| + 2..] == rest;
  }

  lemma ReadQualifiers(q: string, rest: string)
    requires (forall i :: 0 <= i < |q| ==> Qualifier(q[i])) && rest != "" && !Qualifier(rest[0]) && '\n' !in rest
    ensures AfterQualifiers(q + rest) == rest
  {
    RunIs(Qualifier, q + rest, |q|);
    assert (q + rest)[|q|..] == rest;
  }

  /** Neither a digit nor a substitution starts here. */
  lemma NotSpecial(s: string)
    requires s != "" && !Digit(s[0]) && s[0] != 'S'
    ensures Digits(s) == None && AfterSubstitution(s) == None
  {
  }

  predicate CanStart(c: char) { Digit(c) || c == 'C' || c == 'D' || c == 'E' }

  lemma {:induction false} CompsStart(comps: Comps)
    requires ValidComps(comps)
    ensures PrintComps(comps) != "" && CanStart(PrintComps(comps)[0])
  {
    if comps.Comp? {
      NameStart(comps.name);
      assert PrintComps(comps)[0] == PrintName(comps.name)[0];
    }
  }

  lemma EnterPlain(q: string)
    requires q != "" && q[0] != 'S'
    ensures Enter("N" + q) == AfterQualifiers(q)
  {
    assert ("N" + q)[1..] == q;
    NotASubstitution(q);
  }

  lemma EnterSubstituted(seqId: string, q: string)
    requires ValidSeqId(seqId) && q != "" && '\n' !in q
    ensures Enter("N" + (PrintSubstitution(seqId) + q)) == AfterQualifiers(q)
  {
    assert ("N" + (PrintSubstitution(seqId) + q))[1..] == PrintSubstitution(seqId) + q;
    ReadSubstitution(seqId, q);
  }

  lemma ReadPrefix(p: Prefix, rest: string)
    requires ValidPrefix(p) && rest != "" && '\n' !in rest && CanStart(rest[0])
    ensures Enter("N" + PrintPrefix(p) + rest) == rest
  {
    var q := p.qualifiers + rest;
    QualifiersClean(p);
    ReadQualifiers(p.qualifiers, rest);
    if p.substitution.Some? {
      assert "N" + PrintPrefix(p) + rest == "N" + (PrintSubstitution(p.substitution.value) + q);
      EnterSubstituted(p.substitution.value, q);
    } else {
      assert "N" + PrintPrefix(p) + rest == "N" + q;
      EnterPlain(q);
    }
  }

  lemma NotASubstitution(s: string)
    requires s != "" && s[0] != 'S'
    ensures AfterSubstitution(s) == None
  {
  }

  lemma QualifiersClean(p: Prefix)
    requires ValidPrefix(p)
    ensures '\n' !in p.qualifiers
  {
  }

  // No newline is ever printed.

  lemma {:induction false} CleanArg(a: Arg)
    requires ValidArg(a)
    ensures '\n' !in PrintArg(a)
  {
    match a {
      case Source(id) => assert '\n' !in Decimal(|id|);
      case Substitution(seqId) =>
      case Builtin(letter) =>
      case Nested(prefix, comps) => CleanComps(comps);
      case List(args) => CleanArgs(args);
    }
  }

  lemma {:induction false} CleanArgs(args: Args)
    requires ValidArgs(args)
    ensures '\n' !in PrintArgs(args) && PrintArgs(args) != ""
  {
    match args {
      case End =>
      case More(head, tail) => CleanArg(head); CleanArgs(tail);
    }
  }

  lemma {:induction false} CleanComps(comps: Comps)
    requires ValidComps(comps)
    ensures '\n' !in PrintComps(comps)
  {
    match comps {
      case Done =>
      case Comp(name, args, next) =>
        NameStart(name);
        if args.Some? {
          CleanArgs(args.value);
        }
        CleanComps(next);
    }
  }

  // The round trip.

  /** Skipping one argument, whatever follows. */
  lemma {:induction false} SkipArg(a: Arg, rest: string)
    requires ValidArg(a) && rest != "" && '\n' !in rest
    ensures Skip(PrintArg(a) + rest) == Skip(rest)
    decreases a
  {
    match a {
      case Source(id) =>
        SkipId(id, rest);
      case Substitution(seqId) =>
        SkipSubstitution(seqId, rest);
      case Builtin(letter) =>
        SkipBuiltin(letter, rest);
      case Nested(prefix, comps) =>
        ParseUndoesPrint(prefix, comps, rest);
        SkipNested(PrintNested(prefix, comps) + rest);
      case List(args) =>
        assert "I" + PrintArgs(args) + rest == "I" + (PrintArgs(args) + rest);
        SkipUndoesPrint(args, rest);
        SkipList(PrintArgs(args) + rest);
    }
  }

  /** skip_itanium_template drops exactly the argument list. */
  lemma {:induction false} SkipUndoesPrint(args: Args, rest: string)
    requires ValidArgs(args) && '\n' !in rest
    ensures Skip(PrintArgs(args) + rest) == Rest(rest)
    decreases args
  {
    var s := PrintArgs(args) + rest;
    match args {
      case End =>
        NotSpecial(s);
        assert s[1..] == rest;
      case More(head, tail) =>
        CleanArgs(tail);
        assert s == PrintArg(head) + (PrintArgs(tail) + rest);
        SkipArg(head, PrintArgs(tail) + rest);
        SkipUndoesPrint(tail, rest);
    }
  }

  lemma {:induction false} ComponentsUndoPrint(names: seq<(string, bool)>, comps: Comps, rest: string)
    requires ValidComps(comps) && '\n' !in rest
    ensures Components(names, PrintComps(comps) + rest) == Names(names + Listing(comps), rest)
    decreases comps, 0
  {
    match comps {
      case Done =>
        NoComponents(names, rest);
        assert names + Listing(comps) == names;
      case Comp(name, args, next) =>
        CleanComps(next);
        CompsStart(next);
        ComponentsUndoPrint(names + [(PrintName(name), args.Some?)], next, rest);
        if args.Some? {
          CleanArgs(args.value);
          SkipUndoesPrint(args.value, PrintComps(next) + rest);
          TemplatedComponent(names, name, args.value, next, rest);
        } else {
          PlainComponent(names, name, next, rest);
        }
        Regroup(names, (PrintName(name), args.Some?), Listing(next));
    }
  }

  lemma NoComponents(names: seq<(string, bool)>, rest: string)
    ensures Components(names, "E" + rest) == Names(names, rest)
  {
    assert ("E" + rest)[1..] == rest;
  }

  lemma Regroup<T>(a: seq<T>, x: T, b: seq<T>)
    ensures (a + [x]) + b == a + ([x] + b)
  {
  }

  lemma PlainComponent(names: seq<(string, bool)>, name: Name, next: Comps, rest: string)
    requires ValidName(name) && ValidComps(next) && '\n' !in rest
    ensures Components(names, PrintComps(Comp(name, None, next)) + rest) ==
            Components(names + [(PrintName(name), false)], PrintComps(next) + rest)
  {
    CleanComps(next);
    CompsStart(next);
    assert PrintComps(Comp(name, None, next)) + rest == PrintName(name) + (PrintComps(next) + rest);
    OneComponent(names, name, PrintComps(next) + rest);
  }

  lemma TemplatedComponent(names: seq<(string, bool)>, name: Name, args: Args, next: Comps, rest: string)
    requires ValidName(name) && ValidArgs(args) && ValidComps(next) && '\n' !in rest
    requires Skip(PrintArgs(args) + (PrintComps(next) + rest)) == Rest(PrintComps(next) + rest)
    ensures Components(names, PrintComps(Comp(name, Some(args), next)) + rest) ==
            Components(names + [(PrintName(name), true)], PrintComps(next) + rest)
  {
    var after := PrintArgs(args) + (PrintComps(next) + rest);
    var listed := "I" + after;
    CleanComps(next);
    CleanArgs(args);
    assert listed[1..] == after;
    TemplatedText(name, args, next, rest);
    OneComponent(names, name, listed);
  }

  lemma TemplatedText(name: Name, args: Args, next: Comps, rest: string)
    ensures PrintComps(Comp(name, Some(args), next)) + rest == PrintName(name) + ("I" + (PrintArgs(args) + (PrintComps(next) + rest)))
  {
    var p, q, r := PrintName(name), PrintArgs(args), PrintComps(next);
    assert p + ("I" + q) + r + rest == p + ("I" + (q + (r + rest)));
  }

  /** parse_itanium_nested_name finds the components, in order, says which have template arguments, and stops right
      after the name. */
  lemma {:induction false} ParseUndoesPrint(prefix: Prefix, comps: Comps, rest: string)
    requires ValidPrefix(prefix) && ValidComps(comps) && '\n' !in rest
    ensures ParseNested(PrintNested(prefix, comps) + rest) == Names(Listing(comps), rest)
    decreases comps, 1
  {
    var body := PrintComps(comps) + rest;
    CleanComps(comps);
    CompsStart(comps);
    assert PrintNested(prefix, comps) + rest == "N" + PrintPrefix(prefix) + body;
    ReadPrefix(prefix, body);
    ComponentsUndoPrint([], comps, rest);
    assert [] + Listing(comps) == Listing(comps);
  }

  /** An expression after any arguments is given up on. */
  lemma {:induction false} ExpressionTooComplex(args: seq<Arg>, c: char, rest: string)
    requires (forall i :: 0 <= i < |args| ==> ValidArg(args[i])) && (c == 'L' || c == 'X') && '\n' !in rest
    ensures Skip(PrintAll(args) + [c] + rest) == TooComplex
  {
    if args == [] {
      NotSpecial([c] + rest);
      assert PrintAll(args) + [c] + rest == [c] + rest;
    } else {
      ExpressionTooComplex(args[1..], c, rest);
      CleanAll(args[1..]);
      assert PrintAll(args) + [c] + rest == PrintArg(args[0]) + (PrintAll(args[1..]) + [c] + rest);
      SkipArg(args[0], PrintAll(args[1..]) + [c] + rest);
    }
  }

  function PrintAll(args: seq<Arg>): string {
    if args == [] then "" else PrintArg(args[0]) + PrintAll(args[1..])
  }

  lemma {:induction false} CleanAll(args: seq<Arg>)
    requires forall i :: 0 <= i < |args| ==> ValidArg(args[i])
    ensures '\n' !in PrintAll(args)
  {
    if args != [] {
      CleanArg(args[0]);
      CleanAll(args[1..]);
    }
  }

  // What is never closed is never accepted.

  lemma DigitsWithin(s: string)
    requires 'E' !in s && Digits(s).Some?
    ensures 'E' !in Digits(s).value.1
  {
  }

  lemma NameRestWithin(s: string)
    requires 'E' !in s && s != ""
    ensures 'E' !in ParseName(s).1
  {
    if Digits(s).Some? {
      DigitsWithin(s);
    }
  }

  lemma QualifiersWithin(s: string)
    requires 'E' !in s
    ensures 'E' !in AfterQualifiers(s)
  {
  }

  lemma SubstitutionWithin(s: string)
    requires 'E' !in s && AfterSubstitution(s).Some?
    ensures 'E' !in AfterSubstitution(s).value
  {
  }

  lemma EnterWithin(s: string)
    requires s != "" && s[0] == 'N' && 'E' !in s
    ensures 'E' !in Enter(s)
  {
    if AfterSubstitution(s[1..]).Some? {
      SubstitutionWithin(s[1..]);
      QualifiersWithin(AfterSubstitution(s[1..]).value);
    } else {
      QualifiersWithin(s[1..]);
    }
  }

  /** A template argument list without E has no end. */
  lemma {:induction false} Unclosed(s: string)
    requires 'E' !in s
    ensures !Skip(s).Rest?
    decreases |s|, 1
  {
    if s != "" {
      var digits, substitution := Digits(s), AfterSubstitution(s);
      if digits.Some? {
        DigitsWithin(s);
        Unclosed(Drop(digits.value.1, Value(digits.value.0)));
      } else if substitution.Some? {
        SubstitutionWithin(s);
        Unclosed(substitution.value);
      } else if s[0] == 'N' {
        EnterWithin(s);
        UnclosedNested([], Enter(s));
      } else {
        Unclosed(s[1..]);
      }
    }
  }

  /** Neither has a nested name. */
  lemma {:induction false} UnclosedNested(names: seq<(string, bool)>, s: string)
    requires 'E' !in s
    ensures !Components(names, s).Names?
    decreases |s|, 0
  {
    if s != "" {
      var (name, rest) := ParseName(s);
      NameRestWithin(s);
      if name.Some? {
        if rest != "" && rest[0] == 'I' {
          Unclosed(rest[1..]);
        } else {
          UnclosedNested(names + [(name.value, false)], rest);
        }
      }
    }
  }
}
