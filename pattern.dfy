/**
 * Anchored regular expressions (`/^...$/.test(s)`) of the restricted shape the form
 * validators use: a sequence of atoms, each a literal, an optional literal, a choice of
 * literals, a bracket expression repeated between a minimum and a maximum number of
 * times, or the `\b` assertion. None of the patterns has a flag, a lookaround or a
 * back-reference, so the strings `test` accepts are exactly those `FullMatch` accepts:
 * some split of the whole string into consecutive pieces, one per atom.
 */
module Pattern {
  import opened Text

  /** The bracket expressions that occur in the form regexes. */
  datatype CharClass =
    | WordDash        // [\w-]
    | WordDotDash     // [\w.-]
    | HostChar        // [-a-zA-Z0-9@:%._\+~#=]
    | TldChar         // [a-zA-Z0-9()]
    | PathChar        // [-a-zA-Z0-9()@:%_\+.~#?&//=]
    | NonSpaceNonAt   // [^\s@]
    | Digit           // [0-9]

  predicate InClass(k: CharClass, c: char) {
    match k
    case WordDash => IsWordChar(c) || c == '-'
    case WordDotDash => IsWordChar(c) || c == '.' || c == '-'
    case HostChar => IsAlnum(c) || c in "-@:%._+~#="
    case TldChar => IsAlnum(c) || c in "()"
    case PathChar => IsAlnum(c) || c in "-()@:%_+.~#?&/="
    case NonSpaceNonAt => !IsSpace(c) && c != '@'
    case Digit => IsDigit(c)
  }

  /** Upper bound of a repetition: `+` and `*` have none, `{m,n}` has `n`. */
  datatype Bound = Unbounded | AtMost(n: nat) {
    predicate Admits(count: nat) { Unbounded? || count <= n }
  }

  datatype Atom =
    | Lit(text: string)                              // `linkedin\.com\/`
    | Opt(text: string)                              // `(www\.)?`, `s?`
    | OneOf(choices: seq<string>)                    // `(in|company)`
    | Repeat(cls: CharClass, min: nat, max: Bound)   // `[..]+`, `[..]*`, `[..]{1,6}`
    | WordBoundary                                   // `\b`

  /** A `\w` character stands at index `i` (outside the string there is none). */
  predicate WordAt(s: string, i: int) {
    0 <= i < |s| && IsWordChar(s[i])
  }

  /** Atom `a` matches exactly the piece `s[i..j]`. */
  predicate AtomMatches(a: Atom, s: string, i: nat, j: nat)
    requires i <= j <= |s|
  {
    match a
    case Lit(w) => s[i..j] == w
    case Opt(w) => i == j || s[i..j] == w
    case OneOf(ws) => s[i..j] in ws
    case Repeat(k, lo, hi) =>
      lo <= j - i && hi.Admits(j - i) && forall m | i <= m < j :: InClass(k, s[m])
    case WordBoundary => i == j && WordAt(s, i - 1) != WordAt(s, i)
  }

  /** The atoms `p` match `s[i..]` as a whole. */
  predicate MatchesFrom(p: seq<Atom>, s: string, i: nat)
    requires i <= |s|
    decreases |p|
  {
    if p == [] then i == |s|
    else exists j | i <= j <= |s| :: AtomMatches(p[0], s, i, j) && MatchesFrom(p[1..], s, j)
  }

  /** `/^p$/.test(s)` */
  predicate FullMatch(p: seq<Atom>, s: string) {
    MatchesFrom(p, s, 0)
  }

  /** Atom `k` of `p` matches the piece of `s` between cut points `k` and `k + 1`. */
  predicate PieceMatches(p: seq<Atom>, s: string, cuts: seq<nat>, k: nat)
    requires k < |p| && |cuts| == |p| + 1
  {
    cuts[k] <= cuts[k + 1] <= |s| && AtomMatches(p[k], s, cuts[k], cuts[k + 1])
  }

  /** A match is established by naming where each atom's piece ends. */
  lemma {:induction false} MatchedBy(p: seq<Atom>, s: string, cuts: seq<nat>)
    requires |cuts| == |p| + 1 && cuts[|p|] == |s|
    requires forall k | 0 <= k < |p| :: PieceMatches(p, s, cuts, k)
    ensures cuts[0] <= |s| && MatchesFrom(p, s, cuts[0])
    decreases |p|
  {
    if p != [] {
      forall k | 0 <= k < |p| - 1 ensures PieceMatches(p[1..], s, cuts[1..], k) {
        assert PieceMatches(p, s, cuts, k + 1);
      }
      MatchedBy(p[1..], s, cuts[1..]);
      assert PieceMatches(p, s, cuts, 0);
    }
  }

  /** A literal atom consumes exactly its text. */
  lemma LitStep(p: seq<Atom>, s: string, i: nat)
    requires p != [] && p[0].Lit? && i <= |s| && MatchesFrom(p, s, i)
    ensures OccursAt(s, p[0].text, i) && MatchesFrom(p[1..], s, i + |p[0].text|)
  {
    var j :| i <= j <= |s| && AtomMatches(p[0], s, i, j) && MatchesFrom(p[1..], s, j);
  }

  /** An optional literal consumes nothing or its text. */
  lemma OptStep(p: seq<Atom>, s: string, i: nat)
    requires p != [] && p[0].Opt? && i <= |s| && MatchesFrom(p, s, i)
    ensures MatchesFrom(p[1..], s, i)
      || (OccursAt(s, p[0].text, i) && MatchesFrom(p[1..], s, i + |p[0].text|))
  {
    var j :| i <= j <= |s| && AtomMatches(p[0], s, i, j) && MatchesFrom(p[1..], s, j);
  }

  /** A choice consumes one of its alternatives. */
  lemma OneOfStep(p: seq<Atom>, s: string, i: nat)
    requires p != [] && p[0].OneOf? && i <= |s| && MatchesFrom(p, s, i)
    ensures exists w | w in p[0].choices :: OccursAt(s, w, i) && MatchesFrom(p[1..], s, i + |w|)
  {
    var j :| i <= j <= |s| && AtomMatches(p[0], s, i, j) && MatchesFrom(p[1..], s, j);
    var w := s[i..j];
    assert OccursAt(s, w, i);
  }

  /** A repetition consumes a run of its class whose length is within the bounds. */
  lemma RepeatStep(p: seq<Atom>, s: string, i: nat) returns (j: nat)
    requires p != [] && p[0].Repeat? && i <= |s| && MatchesFrom(p, s, i)
    ensures i + p[0].min <= j <= |s| && p[0].max.Admits(j - i)
    ensures forall m | i <= m < j :: InClass(p[0].cls, s[m])
    ensures MatchesFrom(p[1..], s, j)
  {
    j :| i <= j <= |s| && AtomMatches(p[0], s, i, j) && MatchesFrom(p[1..], s, j);
  }

  /** The characters an atom can contribute to a match. */
  predicate AtomAdmits(a: Atom, c: char) {
    match a
    case Lit(w) => c in w
    case Opt(w) => c in w
    case OneOf(ws) => exists w | w in ws :: c in w
    case Repeat(k, _, _) => InClass(k, c)
    case WordBoundary => false
  }

  /** The alphabet of a pattern. */
  predicate Admits(p: seq<Atom>, c: char) {
    exists a | a in p :: AtomAdmits(a, c)
  }

  /** A character no atom admits is outside the alphabet. */
  lemma NoAtomAdmits(p: seq<Atom>, c: char)
    requires forall i | 0 <= i < |p| :: !AtomAdmits(p[i], c)
    ensures !Admits(p, c)
  {
    forall a | a in p ensures !AtomAdmits(a, c) {
      var i :| 0 <= i < |p| && p[i] == a;
    }
  }

  /** Every character of a matched string comes from the pattern's alphabet. */
  lemma {:induction false} MatchStaysInAlphabet(p: seq<Atom>, s: string, i: nat)
    requires i <= |s| && MatchesFrom(p, s, i)
    ensures forall m | i <= m < |s| :: Admits(p, s[m])
    decreases |p|
  {
    if p != [] {
      var j :| i <= j <= |s| && AtomMatches(p[0], s, i, j) && MatchesFrom(p[1..], s, j);
      MatchStaysInAlphabet(p[1..], s, j);
      forall m | i <= m < |s| ensures Admits(p, s[m]) {
        if m < j {
          assert s[m] == s[i..j][m - i];
          assert AtomAdmits(p[0], s[m]);
          assert p[0] in p;
        } else {
          var a :| a in p[1..] && AtomAdmits(a, s[m]);
          assert a in p;
        }
      }
    }
  }

  /** A pattern cannot match a string with a character outside its alphabet. */
  lemma ForeignCharRefutes(p: seq<Atom>, s: string, m: nat)
    requires m < |s| && !Admits(p, s[m])
    ensures !FullMatch(p, s)
  {
    if FullMatch(p, s) {
      MatchStaysInAlphabet(p, s, 0);
    }
  }
}
