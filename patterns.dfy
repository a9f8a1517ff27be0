/** The two regular expressions of src/lib/auth/auth-validations.ts, written as sequences of
    anchored atoms (a character class repeated between a minimum and a maximum number of times). */
module Patterns {

  /** The characters matched by `\s` in a JavaScript regular expression. */
  predicate IsWhitespace(c: char) {
    || c == ' ' || c == '\t' || c == '\n' || c == '\U{000B}' || c == '\U{000C}' || c == '\r'
    || c == '\U{00A0}' || c == '\U{1680}' || ('\U{2000}' <= c <= '\U{200A}')
    || c == '\U{2028}' || c == '\U{2029}' || c == '\U{202F}' || c == '\U{205F}'
    || c == '\U{3000}' || c == '\U{FEFF}'
  }

  predicate IsDigit(c: char) {
    '0' <= c <= '9'
  }

  datatype CharClass =
    | Literal(c: char)   // a single character, such as `@` or `[(]`
    | Digit              // `\d`
    | NonZeroDigit       // `[1-9]`
    | Space              // `\s`
    | Separator          // `[-\s\.]`
    | NotSpaceOrAt       // `[^\s@]`

  predicate InClass(c: char, k: CharClass) {
    match k
    case Literal(d) => c == d
    case Digit => IsDigit(c)
    case NonZeroDigit => '1' <= c <= '9'
    case Space => IsWhitespace(c)
    case Separator => c == '-' || c == '.' || IsWhitespace(c)
    case NotSpaceOrAt => c != '@' && !IsWhitespace(c)
  }

  datatype Bound = AtMost(n: nat) | Unbounded

  /** `cls{min,max}`; `+` is `{1,}` and `?` is `{0,1}`. */
  datatype Atom = Atom(cls: CharClass, min: nat, max: Bound)

  predicate AllIn(s: string, k: CharClass) {
    forall i :: 0 <= i < |s| ==> InClass(s[i], k)
  }

  /** The text `s` is one repetition block of atom `a`. */
  predicate Fits(a: Atom, s: string) {
    && a.min <= |s|
    && (a.max.AtMost? ==> |s| <= a.max.n)
    && AllIn(s, a.cls)
  }

  /** A regular expression made of atoms in a row. */
  datatype Pattern = End | Then(head: Atom, rest: Pattern)

  /** `s` matches the pattern anchored at both ends (`^...$`): it splits into consecutive
      blocks, one per atom. The split is searched for as a backtracking engine does. */
  predicate Matches(p: Pattern, s: string)
    decreases p, 1, 0
  {
    match p
    case End => s == []
    case Then(a, q) => TrySplit(a, q, s, 0)
  }

  /** Some first block `s[..n]` with `n >= k` fits `a` and the rest matches `q`. */
  predicate TrySplit(a: Atom, q: Pattern, s: string, k: nat)
    decreases Then(a, q), 0, |s| - k
  {
    k <= |s| && ((Fits(a, s[..k]) && Matches(q, s[k..])) || TrySplit(a, q, s, k + 1))
  }

  const AnyClean: Atom := Atom(NotSpaceOrAt, 1, Unbounded)
  const AtSign: Atom := Atom(Literal('@'), 1, AtMost(1))
  const Dot: Atom := Atom(Literal('.'), 1, AtMost(1))

  /** `/^[^\s@]+@[^\s@]+\.[^\s@]+$/` */
  const EmailPattern: Pattern :=
    Then(AnyClean, Then(AtSign, Then(AnyClean, Then(Dot, Then(AnyClean, End)))))

  /** `/^[\+]?[1-9][\d]{0,3}[\s]?[(]?[\d]{1,3}[)]?[-\s\.]?[\d]{3,4}[-\s\.]?[\d]{4,6}$/` */
  const PhonePattern: Pattern :=
    Then(Atom(Literal('+'), 0, AtMost(1)),
    Then(Atom(NonZeroDigit, 1, AtMost(1)),
    Then(Atom(Digit, 0, AtMost(3)),
    Then(Atom(Space, 0, AtMost(1)),
    Then(Atom(Literal('('), 0, AtMost(1)),
    Then(Atom(Digit, 1, AtMost(3)),
    Then(Atom(Literal(')'), 0, AtMost(1)),
    Then(Atom(Separator, 0, AtMost(1)),
    Then(Atom(Digit, 3, AtMost(4)),
    Then(Atom(Separator, 0, AtMost(1)),
    Then(Atom(Digit, 4, AtMost(6)),
    End)))))))))))

  // ---------------------------------------------------------------------------
  // General facts about anchored matching

  /** Shortest text a pattern accepts. */
  function MinLen(p: Pattern): nat {
    match p
    case End => 0
    case Then(a, q) => a.min + MinLen(q)
  }

  predicate AllBounded(p: Pattern) {
    match p
    case End => true
    case Then(a, q) => a.max.AtMost? && AllBounded(q)
  }

  /** Longest text a pattern whose atoms are all bounded accepts. */
  function MaxLen(p: Pattern): nat
    requires AllBounded(p)
  {
    match p
    case End => 0
    case Then(a, q) => a.max.n + MaxLen(q)
  }

  /** Some atom of `p` admits character `c`. */
  predicate AdmittedBy(c: char, p: Pattern) {
    match p
    case End => false
    case Then(a, q) => InClass(c, a.cls) || AdmittedBy(c, q)
  }

  /** The search finds every split at or after its starting point. */
  lemma {:induction false} SplitFound(a: Atom, q: Pattern, s: string, k: nat, n: nat)
    requires k <= n <= |s| && Fits(a, s[..n]) && Matches(q, s[n..])
    ensures TrySplit(a, q, s, k)
    decreases n - k
  {
    if k < n { SplitFound(a, q, s, k + 1, n); }
  }

  /** A successful search exhibits a split. */
  lemma {:induction false} SplitWitness(a: Atom, q: Pattern, s: string, k: nat) returns (n: nat)
    requires TrySplit(a, q, s, k)
    ensures k <= n <= |s| && Fits(a, s[..n]) && Matches(q, s[n..])
    decreases |s| - k
  {
    if Fits(a, s[..k]) && Matches(q, s[k..]) {
      n := k;
    } else {
      n := SplitWitness(a, q, s, k + 1);
    }
  }

  /** Anchored matching is splitting into blocks: the search agrees with the definition
      "some first block fits the head atom and the remainder matches the rest". */
  lemma MatchesThenIff(a: Atom, q: Pattern, s: string)
    ensures Matches(Then(a, q), s) <==> exists n :: 0 <= n <= |s| && Fits(a, s[..n]) && Matches(q, s[n..])
  {
    if Matches(Then(a, q), s) {
      var n := SplitWitness(a, q, s, 0);
    }
    if exists n :: 0 <= n <= |s| && Fits(a, s[..n]) && Matches(q, s[n..]) {
      var n :| 0 <= n <= |s| && Fits(a, s[..n]) && Matches(q, s[n..]);
      SplitFound(a, q, s, 0, n);
    }
  }

  /** The atoms of a pattern. */
  function Atoms(p: Pattern): set<Atom> {
    match p
    case End => {}
    case Then(a, q) => {a} + Atoms(q)
  }

  lemma {:induction false} AdmittedClass(c: char, p: Pattern)
    requires AdmittedBy(c, p)
    ensures exists a :: a in Atoms(p) && InClass(c, a.cls)
  {
    match p
    case Then(a, q) =>
      if !InClass(c, a.cls) { AdmittedClass(c, q); }
  }

  /** Prepending one block that fits the first atom extends a match. */
  lemma MatchesCons(a: Atom, p: Pattern, x: string, s: string)
    requires Fits(a, x) && Matches(p, s)
    ensures Matches(Then(a, p), x + s)
  {
    assert (x + s)[..|x|] == x && (x + s)[|x|..] == s;
    SplitFound(a, p, x + s, 0, |x|);
  }

  /** The block `s[i..j]` fitting `a`, followed by a match of `p`, matches `Then(a, p)` from `i`. */
  lemma MatchesAt(a: Atom, p: Pattern, s: string, i: nat, j: nat)
    requires i <= j <= |s| && Fits(a, s[i..j]) && Matches(p, s[j..])
    ensures Matches(Then(a, p), s[i..])
  {
    assert s[i..][..j - i] == s[i..j] && s[i..][j - i..] == s[j..];
    SplitFound(a, p, s[i..], 0, j - i);
  }

  lemma {:induction false} MatchesLength(p: Pattern, s: string)
    requires Matches(p, s)
    ensures MinLen(p) <= |s|
    ensures AllBounded(p) ==> |s| <= MaxLen(p)
  {
    match p
    case End =>
    case Then(a, q) =>
      var n := SplitWitness(a, q, s, 0);
      MatchesLength(q, s[n..]);
  }

  lemma {:induction false} MatchesAlphabet(p: Pattern, s: string)
    requires Matches(p, s)
    ensures forall i :: 0 <= i < |s| ==> AdmittedBy(s[i], p)
  {
    match p
    case End =>
    case Then(a, q) =>
      var n := SplitWitness(a, q, s, 0);
      MatchesAlphabet(q, s[n..]);
      forall i | 0 <= i < |s| ensures AdmittedBy(s[i], p) {
        if i < n {
          assert s[..n][i] == s[i];
        } else {
          assert s[n..][i - n] == s[i];
        }
      }
  }

  // ---------------------------------------------------------------------------
  // The email pattern

  /** A direct description of the texts `emailRegex` accepts: no whitespace anywhere, exactly
      one `@`, not first, and after it a `.` that is neither right after the `@` nor last. */
  ghost predicate EmailShape(s: string) {
    exists i, j ::
      && 0 < i && i + 1 < j && j + 1 < |s|
      && s[i] == '@' && s[j] == '.'
      && (forall k :: 0 <= k < |s| && k != i ==> s[k] != '@' && !IsWhitespace(s[k]))
  }

  lemma EmailShapeFromMatch(s: string)
    requires Matches(EmailPattern, s)
    ensures EmailShape(s)
  {
    var p := EmailPattern;
    var a := SplitWitness(p.head, p.rest, s, 0);
    var t := s[a..];
    var b := SplitWitness(p.rest.head, p.rest.rest, t, 0);
    var u := t[b..];
    var c := SplitWitness(p.rest.rest.head, p.rest.rest.rest, u, 0);
    var v := u[c..];
    var d := SplitWitness(p.rest.rest.rest.head, p.rest.rest.rest.rest, v, 0);
    var w := v[d..];
    var e := SplitWitness(p.rest.rest.rest.rest.head, End, w, 0);
    assert b == 1 && d == 1 && e == |w|;
    var i, j := a, a + 1 + c;
    assert s[i] == t[0] == t[..b][0] == '@';
    assert s[j] == v[0] == v[..d][0] == '.';
    forall k | 0 <= k < |s| && k != i ensures s[k] != '@' && !IsWhitespace(s[k]) {
      if k < a {
        assert s[k] == s[..a][k];
      } else if k < j {
        assert s[k] == u[..c][k - a - 1];
      } else if k > j {
        assert s[k] == w[..e][k - j - 1];
      }
    }
  }

  lemma MatchFromEmailShape(s: string)
    requires EmailShape(s)
    ensures Matches(EmailPattern, s)
  {
    var i, j :| && 0 < i && i + 1 < j && j + 1 < |s|
                && s[i] == '@' && s[j] == '.'
                && (forall k :: 0 <= k < |s| && k != i ==> s[k] != '@' && !IsWhitespace(s[k]));
    var local, domain, top := s[..i], s[i + 1..j], s[j + 1..];
    assert Fits(AnyClean, top) by {
      forall k | 0 <= k < |top| ensures InClass(top[k], NotSpaceOrAt) { assert top[k] == s[j + 1 + k]; }
    }
    MatchesCons(AnyClean, End, top, []);
    assert top + [] == top;
    MatchesCons(Dot, Then(AnyClean, End), [s[j]], top);
    assert Fits(AnyClean, domain) by {
      forall k | 0 <= k < |domain| ensures InClass(domain[k], NotSpaceOrAt) { assert domain[k] == s[i + 1 + k]; }
    }
    MatchesCons(AnyClean, EmailPattern.rest.rest.rest, domain, [s[j]] + top);
    MatchesCons(AtSign, EmailPattern.rest.rest, [s[i]], domain + ([s[j]] + top));
    assert Fits(AnyClean, local) by {
      forall k | 0 <= k < |local| ensures InClass(local[k], NotSpaceOrAt) { assert local[k] == s[k]; }
    }
    MatchesCons(AnyClean, EmailPattern.rest, local, [s[i]] + (domain + ([s[j]] + top)));
    assert local + ([s[i]] + (domain + ([s[j]] + top))) == s;
  }

  /** `emailRegex.test(s)` holds exactly for the texts of `EmailShape`. */
  lemma EmailPatternIff(s: string)
    ensures Matches(EmailPattern, s) <==> EmailShape(s)
  {
    if Matches(EmailPattern, s) { EmailShapeFromMatch(s); }
    if EmailShape(s) { MatchFromEmailShape(s); }
  }

  // ---------------------------------------------------------------------------
  // The phone pattern

  /** Characters that may appear in a phone number `phoneRegex` accepts. */
  predicate PhoneChar(c: char) {
    IsDigit(c) || IsWhitespace(c) || c == '+' || c == '(' || c == ')' || c == '-' || c == '.'
  }

  /** Every accepted phone has 9 to 23 characters, all digits, whitespace or `+()-.`. */
  lemma PhoneMatchShape(s: string)
    requires Matches(PhonePattern, s)
    ensures 9 <= |s| <= 23
    ensures forall i :: 0 <= i < |s| ==> PhoneChar(s[i])
  {
    MatchesLength(PhonePattern, s);
    MatchesAlphabet(PhonePattern, s);
    forall i | 0 <= i < |s| ensures PhoneChar(s[i]) {
      AdmittedClass(s[i], PhonePattern);
    }
  }

  /** An accepted phone starts with `+` or with a digit other than `0`. */
  lemma PhoneMatchLead(s: string)
    requires Matches(PhonePattern, s)
    ensures |s| > 0 && (s[0] == '+' || '1' <= s[0] <= '9')
  {
    var a := SplitWitness(PhonePattern.head, PhonePattern.rest, s, 0);
    var t := s[a..];
    var b := SplitWitness(PhonePattern.rest.head, PhonePattern.rest.rest, t, 0);
    if a == 1 {
      assert s[0] == s[..a][0];
    } else {
      assert b == 1 && s[0] == t[..b][0];
    }
  }

  /** The pattern's suffix starting at atom `k`. */
  function Suffix(p: Pattern, k: nat): Pattern {
    if k == 0 || p.End? then p else Suffix(p.rest, k - 1)
  }

  const Example: string := "+1 (555) 123-4567"

  lemma PhoneExampleNumber(s: string)
    requires s == Example
    ensures Matches(Suffix(PhonePattern, 7), s[8..])
  {
    assert s[17..] == [];
    MatchesAt(Suffix(PhonePattern, 10).head, End, s, 13, 17);
    MatchesAt(Suffix(PhonePattern, 9).head, Suffix(PhonePattern, 10), s, 12, 13);
    MatchesAt(Suffix(PhonePattern, 8).head, Suffix(PhonePattern, 9), s, 9, 12);
    MatchesAt(Suffix(PhonePattern, 7).head, Suffix(PhonePattern, 8), s, 8, 9);
  }

  lemma PhoneExampleArea(s: string)
    requires s == Example
    ensures Matches(Suffix(PhonePattern, 3), s[2..])
  {
    PhoneExampleNumber(s);
    MatchesAt(Suffix(PhonePattern, 6).head, Suffix(PhonePattern, 7), s, 7, 8);
    MatchesAt(Suffix(PhonePattern, 5).head, Suffix(PhonePattern, 6), s, 4, 7);
    MatchesAt(Suffix(PhonePattern, 4).head, Suffix(PhonePattern, 5), s, 3, 4);
    MatchesAt(Suffix(PhonePattern, 3).head, Suffix(PhonePattern, 4), s, 2, 3);
  }

  /** An international number with every optional part present is accepted. */
  lemma PhoneExample()
    ensures Matches(PhonePattern, Example)
  {
    var s := Example;
    PhoneExampleArea(s);
    MatchesAt(Suffix(PhonePattern, 2).head, Suffix(PhonePattern, 3), s, 2, 2);
    MatchesAt(Suffix(PhonePattern, 1).head, Suffix(PhonePattern, 2), s, 1, 2);
    MatchesAt(PhonePattern.head, Suffix(PhonePattern, 1), s, 0, 1);
    assert s[0..] == s;
  }
}
