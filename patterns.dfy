/**
 * The regular expressions of the line rewriter. Every one of them has the
 * shape  prefix [class]+ terminator  (for instance "session":"([a-z0-9-]+)"),
 * so a pattern is modelled by those three parts and matched the way PCRE
 * does: the subject is searched left to right, the character run is greedy,
 * and after a match the search resumes behind it.
 */
module Patterns {
  import opened Php
  import opened Strings

  /** The character classes the importer's patterns use. */
  datatype CharClass =
    | LowerAlnumDash  // [a-z0-9-]
    | Digits          // \d
    | NotQuote        // [^"]

  predicate InClass(c: char, k: CharClass) {
    match k
    case LowerAlnumDash => ('a' <= c <= 'z') || ('0' <= c <= '9') || c == '-'
    case Digits => '0' <= c <= '9'
    case NotQuote => c != '"'
  }

  datatype Pattern = Pattern(prefix: string, cls: CharClass, terminator: string)

  /**
   * The terminator cannot start with a class character, so a greedy run
   * never has to give characters back for the terminator to match.
   */
  predicate WellFormed(p: Pattern) {
    p.prefix != [] && (p.terminator == [] || !InClass(p.terminator[0], p.cls))
  }

  /** s consists of class characters only. */
  predicate AllIn(s: string, k: CharClass) {
    forall i :: 0 <= i < |s| ==> InClass(s[i], k)
  }

  /** The length of the longest run of class characters at the start of s. */
  function RunLength(s: string, k: CharClass): (n: nat)
    ensures n <= |s|
    decreases |s|
  {
    if s == [] || !InClass(s[0], k) then 0 else RunLength(s[1..], k) + 1
  }

  /** RunLength is the longest run: everything before it is in the class, the next character is not. */
  lemma {:induction false} RunLengthMaximal(s: string, k: CharClass)
    ensures AllIn(s[..RunLength(s, k)], k)
    ensures RunLength(s, k) < |s| ==> !InClass(s[RunLength(s, k)], k)
    decreases |s|
  {
    if s != [] && InClass(s[0], k) {
      RunLengthMaximal(s[1..], k);
      var m := RunLength(s[1..], k);
      assert s[..m + 1] == [s[0]] + s[1..][..m];
    }
  }

  /** The length of the captured run when p matches at the very start of s. */
  function MatchRun(s: string, p: Pattern): (r: Option<nat>)
    ensures r.Some? ==> 0 < r.value && |p.prefix| + r.value + |p.terminator| <= |s|
  {
    if p.prefix <= s then
      var n := RunLength(s[|p.prefix|..], p.cls);
      if n > 0 && p.terminator <= s[|p.prefix| + n..] then Some(n) else None
    else None
  }

  /** A match splits its subject into prefix, captured run, terminator and the rest. */
  lemma {:induction false} MatchSplit(s: string, p: Pattern)
    requires MatchRun(s, p).Some?
    ensures var k := |p.prefix| + MatchRun(s, p).value;
      s == p.prefix + s[|p.prefix|..k] + p.terminator + s[k + |p.terminator|..]
  {
    var k := |p.prefix| + MatchRun(s, p).value;
    assert s[..|p.prefix|] == p.prefix;
    assert s[k..k + |p.terminator|] == p.terminator;
    assert s == s[..|p.prefix|] + s[|p.prefix|..k] + s[k..k + |p.terminator|] + s[k + |p.terminator|..];
  }

  /**
   * MatchRun finds every match a backtracking matcher would find; when the
   * pattern has a terminator, the run it captures is the only one possible.
   */
  lemma {:induction false} MatchRunComplete(s: string, p: Pattern, n: nat)
    requires WellFormed(p) && p.prefix <= s
    requires 0 < n && |p.prefix| + n <= |s| && AllIn(s[|p.prefix|..|p.prefix| + n], p.cls)
    requires p.terminator <= s[|p.prefix| + n..]
    ensures MatchRun(s, p).Some?
    ensures p.terminator != [] ==> MatchRun(s, p) == Some(n)
  {
    var k := |p.prefix|;
    var rest := s[k..];
    assert rest[..n] == s[k..k + n];
    RunLengthAtLeast(rest, p.cls, n);
    if p.terminator != [] {
      assert rest[n] == p.terminator[0];
      RunLengthAtMost(rest, p.cls, n);
    }
  }

  /** A run of n class characters at the start makes the longest run at least n long. */
  lemma {:induction false} RunLengthAtLeast(t: string, k: CharClass, n: nat)
    requires n <= |t| && AllIn(t[..n], k)
    ensures RunLength(t, k) >= n
    decreases n
  {
    if n > 0 {
      assert t[..n][0] == t[0];
      var u := t[1..][..n - 1];
      forall i | 0 <= i < |u|
        ensures InClass(u[i], k)
      {
        assert u[i] == t[..n][i + 1];
      }
      RunLengthAtLeast(t[1..], k, n - 1);
    }
  }

  /** A character outside the class at position n ends the longest run by n. */
  lemma {:induction false} RunLengthAtMost(t: string, k: CharClass, n: nat)
    requires n < |t| && !InClass(t[n], k)
    ensures RunLength(t, k) <= n
    decreases n
  {
    if n > 0 && InClass(t[0], k) {
      assert t[1..][n - 1] == t[n];
      RunLengthAtMost(t[1..], k, n - 1);
    }
  }

  /** A subject cut into the text PCRE skips and the runs it captures. */
  datatype Piece = Text(c: char) | Field(value: string)

  /** The first piece of a non-empty subject: the match at its start, or its first character. */
  function Head(s: string, p: Pattern): Piece
    requires s != []
  {
    match MatchRun(s, p)
    case Some(n) => Field(s[|p.prefix|..|p.prefix| + n])
    case None => Text(s[0])
  }

  /** Where the search resumes after the first piece. */
  function Tail(s: string, p: Pattern): (t: string)
    requires s != []
    ensures |t| < |s|
  {
    match MatchRun(s, p)
    case Some(n) => s[|p.prefix| + n + |p.terminator|..]
    case None => s[1..]
  }

  /** The left-to-right search of preg_match_all / preg_replace as a sequence of pieces. */
  function Scan(s: string, p: Pattern): seq<Piece>
    decreases |s|
  {
    if s == [] then [] else [Head(s, p)] + Scan(Tail(s, p), p)
  }

  function RenderPiece(x: Piece, p: Pattern): string {
    match x
    case Text(c) => [c]
    case Field(v) => p.prefix + v + p.terminator
  }

  /** Glue the pieces back together, each field inside the pattern's prefix and terminator. */
  function Render(ps: seq<Piece>, p: Pattern): string
    decreases |ps|
  {
    if ps == [] then [] else RenderPiece(ps[0], p) + Render(ps[1..], p)
  }

  /** The first piece, rendered, followed by the rest is the subject. */
  lemma {:induction false} HeadTail(s: string, p: Pattern)
    requires s != []
    ensures RenderPiece(Head(s, p), p) + Tail(s, p) == s
  {
    if MatchRun(s, p).Some? {
      MatchSplit(s, p);
    } else {
      assert s == [s[0]] + s[1..];
    }
  }

  lemma {:induction false} RenderCons(x: Piece, ps: seq<Piece>, p: Pattern)
    ensures Render([x] + ps, p) == RenderPiece(x, p) + Render(ps, p)
  {
    assert ([x] + ps)[1..] == ps;
  }

  /** Scanning loses nothing: rendering the pieces gives back the subject. */
  lemma {:induction false} RenderScan(s: string, p: Pattern)
    ensures Render(Scan(s, p), p) == s
    decreases |s|
  {
    if s != [] {
      var rest := Tail(s, p);
      RenderScan(rest, p);
      RenderCons(Head(s, p), Scan(rest, p), p);
      HeadTail(s, p);
    }
  }

  /** The run a match captures consists of class characters only. */
  lemma {:induction false} MatchedRun(s: string, p: Pattern)
    requires MatchRun(s, p).Some?
    ensures AllIn(s[|p.prefix|..|p.prefix| + MatchRun(s, p).value], p.cls)
  {
    var n := MatchRun(s, p).value;
    RunLengthMaximal(s[|p.prefix|..], p.cls);
    assert s[|p.prefix|..|p.prefix| + n] == s[|p.prefix|..][..n];
  }

  /** Every captured field is a non-empty run of class characters. */
  lemma {:induction false} ScanFields(s: string, p: Pattern, x: Piece)
    requires x in Scan(s, p) && x.Field?
    ensures x.value != [] && AllIn(x.value, p.cls)
    decreases |s|
  {
    ScanMember(s, p, x);
    if x == Head(s, p) {
      HeadField(s, p);
    } else {
      ScanFields(Tail(s, p), p, x);
    }
  }

  /** A piece of the scan is its first piece or a piece of the scan of the rest. */
  lemma {:induction false} ScanMember(s: string, p: Pattern, x: Piece)
    requires x in Scan(s, p)
    ensures s != [] && (x == Head(s, p) || x in Scan(Tail(s, p), p))
  {
  }

  /** A field at the start of the subject is a non-empty run of class characters. */
  lemma {:induction false} HeadField(s: string, p: Pattern)
    requires s != [] && Head(s, p).Field?
    ensures Head(s, p).value != [] && AllIn(Head(s, p).value, p.cls)
  {
    MatchedRun(s, p);
  }

  /** What a match is replaced by: a fixed value, or the captured run itself ('$1'). */
  datatype Replacement = Fixed(text: string) | Keep

  function NewValue(r: Replacement, captured: string): string {
    match r
    case Fixed(t) => t
    case Keep => captured
  }

  /**
   * `preg_replace('/prefix(run)terminator/', 'prefix' . value . 'terminator', $s)`:
   * every match keeps its prefix and terminator and gets the new value.
   */
  function ReplaceField(s: string, p: Pattern, r: Replacement): string
    decreases |s|
  {
    if s == [] then []
    else match MatchRun(s, p)
      case Some(n) =>
        var k := |p.prefix| + n;
        p.prefix + NewValue(r, s[|p.prefix|..k]) + p.terminator + ReplaceField(s[k + |p.terminator|..], p, r)
      case None => [s[0]] + ReplaceField(s[1..], p, r)
  }

  function SubstitutePiece(x: Piece, r: Replacement): Piece {
    match x
    case Text(c) => Text(c)
    case Field(v) => Field(NewValue(r, v))
  }

  function Substitute(ps: seq<Piece>, r: Replacement): (qs: seq<Piece>)
    decreases |ps|
  {
    if ps == [] then [] else [SubstitutePiece(ps[0], r)] + Substitute(ps[1..], r)
  }

  lemma {:induction false} SubstituteCons(x: Piece, ps: seq<Piece>, r: Replacement)
    ensures Substitute([x] + ps, r) == [SubstitutePiece(x, r)] + Substitute(ps, r)
  {
    assert ([x] + ps)[1..] == ps;
  }

  /** Substitute keeps the text and the positions of the fields, and sets each field's value. */
  lemma {:induction false} SubstituteAt(ps: seq<Piece>, r: Replacement, i: nat)
    requires i < |ps|
    ensures |Substitute(ps, r)| == |ps|
    ensures ps[i].Text? ==> Substitute(ps, r)[i] == ps[i]
    ensures ps[i].Field? ==> Substitute(ps, r)[i] == Field(NewValue(r, ps[i].value))
    decreases |ps|
  {
    if i > 0 {
      SubstituteAt(ps[1..], r, i - 1);
    } else if |ps| > 1 {
      SubstituteAt(ps[1..], r, 0);
    }
  }

  /** One step of preg_replace: the first piece with its new value, then the rest of the subject. */
  lemma {:induction false} ReplaceFieldStep(s: string, p: Pattern, r: Replacement)
    requires s != []
    ensures ReplaceField(s, p, r) == RenderPiece(SubstitutePiece(Head(s, p), r), p) + ReplaceField(Tail(s, p), p, r)
  {
  }

  /**
   * preg_replace is a substitution on the scanned pieces: the text between
   * matches is kept and every captured run gets the replacement value.
   */
  lemma {:induction false} ReplaceFieldIsSubstitution(s: string, p: Pattern, r: Replacement)
    ensures ReplaceField(s, p, r) == Render(Substitute(Scan(s, p), r), p)
    decreases |s|
  {
    if s != [] {
      var x, rest := Head(s, p), Tail(s, p);
      ReplaceFieldStep(s, p, r);
      ReplaceFieldIsSubstitution(rest, p, r);
      SubstituteCons(x, Scan(rest, p), r);
      RenderCons(SubstitutePiece(x, r), Substitute(Scan(rest, p), r), p);
    }
  }

  lemma {:induction false} SubstituteKeep(ps: seq<Piece>)
    ensures Substitute(ps, Keep) == ps
    decreases |ps|
  {
    if ps != [] {
      SubstituteKeep(ps[1..]);
      assert ps == [ps[0]] + ps[1..];
    }
  }

  /** Replacing every match by its own capture ('$1') leaves the subject unchanged. */
  lemma {:induction false} ReplaceKeep(s: string, p: Pattern)
    ensures ReplaceField(s, p, Keep) == s
  {
    ReplaceFieldIsSubstitution(s, p, Keep);
    SubstituteKeep(Scan(s, p));
    RenderScan(s, p);
  }

  /** `preg_match`: the run captured by the first match, if any. */
  function FirstMatch(s: string, p: Pattern): Option<string>
    decreases |s|
  {
    if s == [] then None
    else match MatchRun(s, p)
      case Some(n) => Some(s[|p.prefix|..|p.prefix| + n])
      case None => FirstMatch(s[1..], p)
  }

  function FirstField(ps: seq<Piece>): Option<string>
    decreases |ps|
  {
    if ps == [] then None
    else if ps[0].Field? then Some(ps[0].value)
    else FirstField(ps[1..])
  }

  /** preg_match captures the first field of the scan. */
  lemma {:induction false} FirstMatchIsFirstField(s: string, p: Pattern)
    ensures FirstMatch(s, p) == FirstField(Scan(s, p))
    decreases |s|
  {
    if s != [] && MatchRun(s, p).None? {
      FirstMatchIsFirstField(s[1..], p);
      assert ([Head(s, p)] + Scan(Tail(s, p), p))[1..] == Scan(s[1..], p);
    }
  }

  /** A subject preg_match finds nothing in is left unchanged by preg_replace. */
  lemma {:induction false} NoMatchUnchanged(s: string, p: Pattern, r: Replacement)
    requires FirstMatch(s, p).None?
    ensures ReplaceField(s, p, r) == s
    decreases |s|
  {
    if s != [] {
      NoMatchUnchanged(s[1..], p, r);
      assert s == [s[0]] + s[1..];
    }
  }

  /**
   * Substituting a non-empty value that shares no character with t never
   * creates an occurrence of t, whatever precedes the pieces.
   */
  lemma {:induction false} SubstituteAddsNothing(before: string, ps: seq<Piece>, p: Pattern, v: string, t: string)
    requires v != [] && Disjoint(t, v)
    requires Contains(before + Render(Substitute(ps, Fixed(v)), p), t)
    ensures Contains(before + Render(ps, p), t)
    decreases |ps|
  {
    if ps == [] {
      assert Substitute(ps, Fixed(v)) == [];
    } else if ps[0].Text? {
      var c := ps[0].c;
      RenderFirstText(ps, p, Fixed(v));
      Regroup(before, [c], Render(Substitute(ps[1..], Fixed(v)), p));
      SubstituteAddsNothing(before + [c], ps[1..], p, v, t);
      Regroup(before, [c], Render(ps[1..], p));
    } else {
      var outRest := Render(Substitute(ps[1..], Fixed(v)), p);
      var inRest := Render(ps[1..], p);
      RenderFirstField(ps, p, v);
      Regroup(before, p.prefix + v, p.terminator + outRest);
      Regroup(before, p.prefix, v);
      if Contains(p.terminator + outRest, t) {
        SubstituteAddsNothing(p.terminator, ps[1..], p, v, t);
      }
      ContainsReplacingMiddle(before + p.prefix, v, ps[0].value, p.terminator + outRest, p.terminator + inRest, t);
      Regroup(before, p.prefix + ps[0].value, p.terminator + inRest);
      Regroup(before, p.prefix, ps[0].value);
    }
  }

  lemma {:induction false} Regroup(b: string, x: string, z: string)
    ensures b + (x + z) == b + x + z
  {
  }

  /** The rendering of pieces starting with text, before and after substitution. */
  lemma {:induction false} RenderFirstText(ps: seq<Piece>, p: Pattern, r: Replacement)
    requires ps != [] && ps[0].Text?
    ensures Render(Substitute(ps, r), p) == [ps[0].c] + Render(Substitute(ps[1..], r), p)
    ensures Render(ps, p) == [ps[0].c] + Render(ps[1..], p)
  {
    assert Substitute(ps, r)[1..] == Substitute(ps[1..], r);
  }

  /** The rendering of pieces starting with a field, before and after substituting v. */
  lemma {:induction false} RenderFirstField(ps: seq<Piece>, p: Pattern, v: string)
    requires ps != [] && ps[0].Field?
    ensures Render(Substitute(ps, Fixed(v)), p) == p.prefix + v + (p.terminator + Render(Substitute(ps[1..], Fixed(v)), p))
    ensures Render(ps, p) == p.prefix + ps[0].value + (p.terminator + Render(ps[1..], p))
  {
    var x, rest := ps[0], ps[1..];
    assert ps == [x] + rest;
    SubstituteCons(x, rest, Fixed(v));
    RenderCons(Field(v), Substitute(rest, Fixed(v)), p);
    Regroup(p.prefix + v, p.terminator, Render(Substitute(rest, Fixed(v)), p));
    RenderCons(x, rest, p);
    Regroup(p.prefix + x.value, p.terminator, Render(rest, p));
  }

  /** preg_replace with such a value keeps t absent from a subject that lacks it. */
  lemma {:induction false} ReplaceKeepsAbsent(s: string, p: Pattern, v: string, t: string)
    requires v != [] && Disjoint(t, v)
    requires !Contains(s, t)
    ensures !Contains(ReplaceField(s, p, Fixed(v)), t)
  {
    ReplaceFieldIsSubstitution(s, p, Fixed(v));
    RenderScan(s, p);
    var out := Render(Substitute(Scan(s, p), Fixed(v)), p);
    assert [] + out == out;
    assert [] + Render(Scan(s, p), p) == s;
    if Contains(out, t) {
      SubstituteAddsNothing([], Scan(s, p), p, v, t);
    }
  }
}
