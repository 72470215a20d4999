/** The two regular expressions of the core, as recognisers with an independent
    reference definition each:
    - the contacts screen's phone format `^\+251-\d{3}-\d{6}$`;
    - the booking schema's amount format `^\d+(\.\d{1,2})?$`. */
module Patterns {
  import opened Common

  predicate AllDigits(s: string) {
    forall i :: 0 <= i < |s| ==> IsDigit(s[i])
  }

  // ---------------------------------------------------------------------------
  // Fixed-shape phone number
  // ---------------------------------------------------------------------------

  /** One position of a fixed-length pattern: a literal character or `\d`. */
  datatype Atom = Lit(c: char) | Digit

  predicate AtomAccepts(a: Atom, c: char) {
    match a
    case Lit(l) => c == l
    case Digit => IsDigit(c)
  }

  /** Whole-string match of a fixed-length pattern (the regex is anchored at both ends). */
  predicate MatchesAtoms(s: string, p: seq<Atom>)
    decreases |p|
  {
    |s| == |p| && (p == [] || (AtomAccepts(p[0], s[0]) && MatchesAtoms(s[1..], p[1..])))
  }

  /** The literal characters of `w`, one atom each. */
  function Lits(w: string): (p: seq<Atom>)
    ensures |p| == |w|
  {
    if w == [] then [] else [Lit(w[0])] + Lits(w[1..])
  }

  /** `\d{n}`. */
  function Digits(n: nat): (p: seq<Atom>)
    ensures |p| == n
  {
    if n == 0 then [] else [Digit] + Digits(n - 1)
  }

  /** `\+251-\d{3}-\d{6}`. */
  function PhonePattern(): seq<Atom> {
    Lits("+251-") + Digits(3) + Lits("-") + Digits(6)
  }

  predicate IsPhone(s: string) {
    MatchesAtoms(s, PhonePattern())
  }

  /** Reference shape of a valid phone number, stated by slices. */
  predicate PhoneShape(s: string) {
    |s| == 15 && s[..5] == "+251-" && AllDigits(s[5..8]) && s[8] == '-' && AllDigits(s[9..])
  }

  /** Matching a concatenated pattern is matching its two parts on the two slices. */
  lemma {:induction false} MatchesConcat(s: string, p: seq<Atom>, q: seq<Atom>)
    ensures MatchesAtoms(s, p + q) <==>
      |s| == |p| + |q| && MatchesAtoms(s[..|p|], p) && MatchesAtoms(s[|p|..], q)
    decreases |p|
  {
    if p == [] {
      assert p + q == q;
      if |s| == |q| { assert s[..0] == [] && s[0..] == s; }
    } else if |s| == |p| + |q| {
      MatchesConcat(s[1..], p[1..], q);
      assert (p + q)[1..] == p[1..] + q;
      assert s[..|p|][1..] == s[1..][..|p| - 1];
      assert s[|p|..] == s[1..][|p| - 1..];
    }
  }

  lemma {:induction false} MatchesLits(s: string, w: string)
    ensures MatchesAtoms(s, Lits(w)) <==> s == w
    decreases |w|
  {
    if w != [] && |s| == |w| {
      MatchesLits(s[1..], w[1..]);
      if s[1..] == w[1..] && s[0] == w[0] { assert s == [s[0]] + s[1..]; }
    }
  }

  lemma {:induction false} MatchesDigits(s: string, n: nat)
    ensures MatchesAtoms(s, Digits(n)) <==> |s| == n && AllDigits(s)
    decreases n
  {
    if n != 0 && |s| == n {
      MatchesDigits(s[1..], n - 1);
      assert forall i :: 1 <= i < |s| ==> s[i] == s[1..][i - 1];
    }
  }

  /** The recogniser accepts exactly the strings of the reference shape. */
  lemma PhoneCorrect(s: string)
    ensures IsPhone(s) <==> PhoneShape(s)
  {
    var a, b, c, d := Lits("+251-"), Digits(3), Lits("-"), Digits(6);
    assert PhonePattern() == ((a + b) + c) + d;
    MatchesConcat(s, (a + b) + c, d);
    if |s| == 15 {
      MatchesConcat(s[..9], a + b, c);
      MatchesConcat(s[..9][..8], a, b);
      MatchesLits(s[..9][..8][..5], "+251-");
      MatchesDigits(s[..9][..8][5..], 3);
      MatchesLits(s[..9][8..], "-");
      MatchesDigits(s[9..], 6);
      assert s[..9][..8][..5] == s[..5];
      assert s[..9][..8][5..] == s[5..8];
      assert s[..9][8..] == [s[8]];
    }
  }

  /** The example number from the input's placeholder is accepted. */
  lemma PhoneAccepted()
    ensures IsPhone("+251-911-123456")
  {
    var s := "+251-911-123456";
    assert s[..5] == "+251-" && s[5..8] == "911" && s[8] == '-' && s[9..] == "123456";
    assert AllDigits("911") && AllDigits("123456");
    PhoneCorrect(s);
  }

  /** A local number, a short subscriber part and spaces instead of dashes
      are rejected. */
  lemma PhoneRejected()
    ensures !IsPhone("0911123456")
    ensures !IsPhone("+251-911-12345")
    ensures !IsPhone("+251 911 123456")
  {
    PhoneCorrect("0911123456");
    PhoneCorrect("+251-911-12345");
    PhoneCorrect("+251 911 123456");
    assert "+251 911 123456"[4] == ' ';
  }

  // ---------------------------------------------------------------------------
  // Decimal amount: one or more digits, optionally "." and one or two digits
  // ---------------------------------------------------------------------------

  /** States of a deterministic automaton for `^\d+(\.\d{1,2})?$`. */
  datatype AmountState = Start | Whole | Point | Frac1 | Frac2 | Reject

  function AmountStep(q: AmountState, c: char): AmountState {
    match q
    case Start => if IsDigit(c) then Whole else Reject
    case Whole => if IsDigit(c) then Whole else if c == '.' then Point else Reject
    case Point => if IsDigit(c) then Frac1 else Reject
    case Frac1 => if IsDigit(c) then Frac2 else Reject
    case Frac2 => Reject
    case Reject => Reject
  }

  function AmountRun(q: AmountState, s: string): AmountState
    decreases |s|
  {
    if s == [] then q else AmountRun(AmountStep(q, s[0]), s[1..])
  }

  predicate Accepting(q: AmountState) {
    q == Whole || q == Frac1 || q == Frac2
  }

  predicate IsAmount(s: string) {
    Accepting(AmountRun(Start, s))
  }

  /** Number of leading digits of `s`. */
  function LeadingDigits(s: string): (k: nat)
    ensures k <= |s| && AllDigits(s[..k]) && (k < |s| ==> !IsDigit(s[k]))
  {
    if s == [] || !IsDigit(s[0]) then 0
    else
      var k := 1 + LeadingDigits(s[1..]);
      assert forall i :: 1 <= i < k ==> s[..k][i] == s[1..][..k - 1][i - 1];
      k
  }

  /** Reference shape of a valid amount: a non-empty run of digits that either
      ends the string or is followed by "." and one or two final digits. */
  predicate AmountShape(s: string) {
    var k := LeadingDigits(s);
    k >= 1 && (k == |s| || (s[k] == '.' && 1 <= |s| - k - 1 <= 2 && AllDigits(s[k + 1..])))
  }

  lemma RejectAbsorbs(s: string)
    ensures AmountRun(Reject, s) == Reject
    decreases |s|
  {
    if s != [] { RejectAbsorbs(s[1..]); }
  }

  /** After the point: accepted iff one or two digits remain. */
  lemma PointRun(s: string)
    ensures Accepting(AmountRun(Point, s)) <==> 1 <= |s| <= 2 && AllDigits(s)
  {
    if s != [] {
      if !IsDigit(s[0]) {
        RejectAbsorbs(s[1..]);
      } else {
        var t := s[1..];
        assert AmountRun(Point, s) == AmountRun(Frac1, t);
        if t != [] {
          assert t[0] == s[1];
          if IsDigit(t[0]) {
            assert AmountRun(Frac1, t) == AmountRun(Frac2, t[1..]);
            if t[1..] != [] {
              assert AmountRun(Frac2, t[1..]) == AmountRun(Reject, t[1..][1..]);
              RejectAbsorbs(t[1..][1..]);
            }
          } else {
            RejectAbsorbs(t[1..]);
          }
        }
      }
    }
  }

  lemma {:induction false} WholeRun(s: string)
    ensures Accepting(AmountRun(Whole, s)) <==>
      var k := LeadingDigits(s);
      k == |s| || (s[k] == '.' && 1 <= |s| - k - 1 <= 2 && AllDigits(s[k + 1..]))
    decreases |s|
  {
    if s != [] {
      if IsDigit(s[0]) {
        WholeRun(s[1..]);
        var k := LeadingDigits(s);
        assert k == 1 + LeadingDigits(s[1..]);
        assert k < |s| ==> s[k] == s[1..][k - 1];
        assert k < |s| ==> s[k + 1..] == s[1..][k..];
      } else if s[0] == '.' {
        PointRun(s[1..]);
      } else {
        RejectAbsorbs(s[1..]);
      }
    }
  }

  /** The automaton accepts exactly the strings of the reference shape. */
  lemma AmountCorrect(s: string)
    ensures IsAmount(s) <==> AmountShape(s)
  {
    if s != [] {
      if IsDigit(s[0]) {
        WholeRun(s[1..]);
        var k := LeadingDigits(s);
        assert k == 1 + LeadingDigits(s[1..]);
        assert k < |s| ==> s[k] == s[1..][k - 1];
        assert k < |s| ==> s[k + 1..] == s[1..][k..];
      } else {
        RejectAbsorbs(s[1..]);
      }
    }
  }

  lemma AmountExamples()
    ensures IsAmount("12") && IsAmount("12.5") && IsAmount("12.50")
    ensures !IsAmount("") && !IsAmount("12.") && !IsAmount(".5") && !IsAmount("12.345")
  {
  }
}
