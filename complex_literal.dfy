/**
 * The complex-literal helpers of rep/MathExpr.hpp: is_complex, which looks for
 * an 'i' standing on its own as an imaginary unit, and ParseComplex, which
 * splits "a+bi" at the first 'i' and the last sign before it.  std::stod is a
 * parameter: it returns the value read or None where it throws.
 */
module ComplexLiteral {
  import opened Outcomes
  import opened Scalar
  import opened Text

  /** The test is_complex applies to an occurrence of 'i' at index p. */
  predicate StandaloneI(s: string, p: nat) {
    && p < |s| && s[p] == 'i'
    && !(p > 0 && IsAlpha(s[p - 1]))
    && !(p + 1 < |s| && IsAlpha(s[p + 1]))
    && (p == 0 || IsSpace(s[p - 1]) || IsDigit(s[p - 1]) || s[p - 1] == '-' || s[p - 1] == '.')
    && (p + 1 == |s| || IsSpace(s[p + 1]) || IsDigit(s[p + 1]))
  }

  /** What is_complex answers: some 'i' passes the test. */
  predicate HasStandaloneI(s: string) {
    exists p: nat :: p < |s| && StandaloneI(s, p)
  }

  /** is_complex: visit each 'i' in turn (std::string::find) and stop at the first one that stands alone. */
  method IsComplex(s: string) returns (b: bool)
    ensures b <==> HasStandaloneI(s)
  {
    var pos := FindFrom(s, 'i', 0);
    while pos < |s|
      invariant pos <= |s|
      invariant pos < |s| ==> s[pos] == 'i'
      invariant forall p: nat :: p < pos ==> !StandaloneI(s, p)
      decreases |s| - pos
    {
      var partOfOther := false;
      if pos > 0 && IsAlpha(s[pos - 1]) {
        partOfOther := true;
      }
      if pos + 1 < |s| && IsAlpha(s[pos + 1]) {
        partOfOther := true;
      }
      if !partOfOther {
        var leftValid := pos == 0 || IsSpace(s[pos - 1]) || IsDigit(s[pos - 1]) || s[pos - 1] == '-' || s[pos - 1] == '.';
        var rightValid := pos + 1 == |s| || IsSpace(s[pos + 1]) || IsDigit(s[pos + 1]);
        if leftValid && rightValid {
          assert StandaloneI(s, pos);
          return true;
        }
      }
      assert !StandaloneI(s, pos);
      pos := FindFrom(s, 'i', pos + 1);
    }
    return false;
  }

  /** A word of two or more letters, such as "sin" or "pi", never holds a standalone 'i'. */
  lemma WordIsNotComplex(w: string)
    requires |w| >= 2 && forall j :: 0 <= j < |w| ==> IsAlpha(w[j])
    ensures !HasStandaloneI(w)
  {
    forall p: nat | p < |w| && w[p] == 'i'
      ensures !StandaloneI(w, p)
    {
      if p > 0 {
        assert IsAlpha(w[p - 1]);
      } else {
        assert IsAlpha(w[p + 1]);
      }
    }
  }

  /** is_complex on a few literals: a trailing 'i' after a digit counts, after '+' it does not. */
  lemma IsComplexExamples()
    ensures HasStandaloneI("2+3i")
    ensures HasStandaloneI("i")
    ensures HasStandaloneI("-2.5i")
    ensures !HasStandaloneI("3+i")
    ensures !HasStandaloneI("")
    ensures !HasStandaloneI("sin")
  {
    assert StandaloneI("2+3i", 3);
    assert StandaloneI("i", 0);
    assert StandaloneI("-2.5i", 4);
    assert !StandaloneI("3+i", 2);
    WordIsNotComplex("sin");
  }

  /** The characters find_last_of("+-") looks for. */
  const Signs: set<char> := {'+', '-'}

  /** The real part: an empty text is 0, anything else goes through std::stod. */
  function RealPart(stod: string -> Option<real>, text: string): Option<real> {
    if text == [] then Some(0.0) else stod(text)
  }

  /** The imaginary coefficient: "" and "+" are 1, "-" is -1, anything else goes through std::stod. */
  function ImaginaryPart(stod: string -> Option<real>, text: string): Option<real> {
    if text == [] || text == "+" then Some(1.0)
    else if text == "-" then Some(-1.0)
    else stod(text)
  }

  function Both(re: Option<real>, im: Option<real>): (r: Option<Complex>)
    ensures r.Some? <==> re.Some? && im.Some?
    ensures r.Some? ==> r.value == Complex(re.value, im.value)
  {
    if re.Some? && im.Some? then Some(Complex(re.value, im.value)) else None
  }

  /**
   * ParseComplex as written.  When the first 'i' is at index 0 the search
   * bound i_pos - 1 wraps around to npos, so find_last_of searches the whole
   * string, and a sign found after the 'i' makes substr take the rest of it.
   */
  function ParseComplex(stod: string -> Option<real>, s: string): (r: Option<Complex>)
    ensures r.Some? && 'i' !in s ==> r.value.im == 0.0
  {
    var iPos := FindFrom(s, 'i', 0);
    if iPos == |s| then Both(stod(s), Some(0.0))
    else
      match FindLastOf(s, Signs, if iPos == 0 then |s| else iPos)
      case None => Both(Some(0.0), ImaginaryPart(stod, s[..iPos]))
      case Some(sign) =>
        var imag := if sign < iPos then s[sign..iPos] else s[sign..];
        Both(RealPart(stod, s[..sign]), ImaginaryPart(stod, imag))
  }

  /** ParseComplex with the sign searched for only before the 'i', as the wrap-around evidently did not intend otherwise. */
  function ParseComplexBounded(stod: string -> Option<real>, s: string): (r: Option<Complex>)
    ensures r.Some? && 'i' !in s ==> r.value.im == 0.0
  {
    var iPos := FindFrom(s, 'i', 0);
    if iPos == |s| then Both(stod(s), Some(0.0))
    else
      match FindLastOf(s, Signs, iPos)
      case None => Both(Some(0.0), ImaginaryPart(stod, s[..iPos]))
      case Some(sign) => Both(RealPart(stod, s[..sign]), ImaginaryPart(stod, s[sign..iPos]))
  }

  lemma FirstIAt(s: string, p: nat)
    requires p < |s| && s[p] == 'i' && 'i' !in s[..p]
    ensures FindFrom(s, 'i', 0) == p
  {
    assert forall j :: 0 <= j < p ==> s[..p][j] == s[j];
  }

  lemma NoSignBelow(s: string, u: string, n: nat)
    requires n <= |u| <= |s| && s[..|u|] == u && forall j :: 0 <= j < n ==> u[j] !in Signs
    ensures FindLastOf(s, Signs, n) == None
  {
    assert forall j :: 0 <= j < n ==> s[j] == u[j];
  }

  lemma {:induction false} LastSignAt(s: string, q: nat, n: nat)
    requires q < n <= |s| && s[q] in Signs
    requires forall j :: q < j < n ==> s[j] !in Signs
    ensures FindLastOf(s, Signs, n) == Some(q)
    decreases n
  {
    if n - 1 > q {
      LastSignAt(s, q, n - 1);
    }
  }

  /** Without an 'i' the whole text is the real part. */
  lemma ParseComplexReal(stod: string -> Option<real>, s: string)
    requires 'i' !in s
    ensures ParseComplex(stod, s).Some? <==> stod(s).Some?
    ensures ParseComplex(stod, s).Some? ==> ParseComplex(stod, s).value == Complex(stod(s).value, 0.0)
  {
    assert forall j :: 0 <= j < |s| ==> s[j] in s;
  }

  /**
   * "a+bi" and "a-bi": the text before the last sign ahead of the first 'i'
   * is the real part, the sign and what follows it up to the 'i' the
   * imaginary coefficient, and whatever follows the 'i' is ignored.
   */
  lemma {:induction false} ParseComplexSplit(stod: string -> Option<real>, a: string, sign: char, b: string, rest: string)
    requires sign in Signs && 'i' !in a && 'i' !in b
    requires forall j :: 0 <= j < |b| ==> b[j] !in Signs
    ensures ParseComplex(stod, a + [sign] + b + "i" + rest)
         == Both(RealPart(stod, a), ImaginaryPart(stod, [sign] + b))
  {
    var s := a + [sign] + b + "i" + rest;
    var p := |a| + 1 + |b|;
    assert s[p] == 'i';
    assert s[..p] == a + [sign] + b;
    FirstIAt(s, p);
    assert forall j :: |a| < j < p ==> s[j] == b[j - |a| - 1];
    LastSignAt(s, |a|, p);
    assert s[..|a|] == a;
    assert s[|a|..p] == [sign] + b;
  }

  /** A coefficient with no sign: "bi" is 0 + b i, whatever follows the 'i'. */
  lemma ParseComplexImaginary(stod: string -> Option<real>, b: string, rest: string)
    requires b != [] && 'i' !in b
    requires forall j :: 0 <= j < |b| ==> b[j] !in Signs
    ensures ParseComplex(stod, b + "i" + rest) == Both(Some(0.0), ImaginaryPart(stod, b))
  {
    var s := b + "i" + rest;
    var p := |b|;
    assert s[p] == 'i';
    assert s[..p] == b;
    FirstIAt(s, p);
    NoSignBelow(s, b, p);
  }

  /**
   * The wrap-around: with the 'i' first, a sign after it still splits the text,
   * so "i-3" sends "i" to std::stod (which throws) although "i" alone is 0+1i.
   */
  lemma ParseComplexLeadingIWraps(stod: string -> Option<real>)
    requires stod("i") == None
    ensures ParseComplex(stod, "i") == Some(Complex(0.0, 1.0))
    ensures ParseComplex(stod, "i-3") == None
  {
    assert FindFrom("i", 'i', 0) == 0;
    assert FindFrom("i-3", 'i', 0) == 0;
    assert FindLastOf("i-3", Signs, 3) == Some(1) by {
      assert "i-3"[2] !in Signs;
    }
    assert "i-3"[..1] == "i";
  }

  /** With the bounded search, whatever follows the first 'i' never matters. */
  lemma ParseComplexBoundedIgnoresTail(stod: string -> Option<real>, s: string, rest: string)
    requires 'i' in s
    ensures ParseComplexBounded(stod, s + rest) == ParseComplexBounded(stod, s)
  {
    var p := FindFrom(s, 'i', 0);
    var t := s + rest;
    assert s[..p] == t[..p];
    assert forall j :: 0 <= j < p ==> s[..p][j] != 'i';
    FirstIAt(t, p);
    var k := FindLastOf(s, Signs, p);
    var m := FindLastOf(t, Signs, p);
    assert k == m by {
      FindLastOfPrefix(s, t, p);
    }
    if k.Some? {
      assert s[..k.value] == t[..k.value];
      assert s[k.value..p] == t[k.value..p];
    }
  }

  lemma {:induction false} FindLastOfPrefix(s: string, t: string, n: nat)
    requires n <= |s| <= |t| && s == t[..|s|]
    ensures FindLastOf(s, Signs, n) == FindLastOf(t, Signs, n)
    decreases n
  {
    if n > 0 {
      assert s[n - 1] == t[n - 1];
      FindLastOfPrefix(s, t, n - 1);
    }
  }
}
