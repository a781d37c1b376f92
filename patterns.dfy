/**
 * The subset of Ruby regular expressions that the per-country bank-account
 * classes use: concatenations of ASCII character classes repeated a bounded
 * number of times, literal infixes, and one optional fixed-length group,
 * anchored either to the whole string (`\A...\z`), to some line (`^...$`) or
 * to the last line (`^...\z`).
 */
module Patterns {

  // ---------------------------------------------------------------------
  // Character classes
  // ---------------------------------------------------------------------

  /** `[0-9]` / `\d`, `[a-zA-Z]`, `[A-Z]`, `[0-9a-zA-Z]`, `[A-Z0-9]`; Ruby's `\d` is ASCII-only. */
  datatype CharClass = Digit | Letter | Upper | Alnum | UpperOrDigit

  predicate IsDigit(c: char) { '0' <= c <= '9' }
  predicate IsUpper(c: char) { 'A' <= c <= 'Z' }
  predicate IsLower(c: char) { 'a' <= c <= 'z' }

  predicate Has(k: CharClass, c: char)
  {
    match k
    case Digit => IsDigit(c)
    case Letter => IsUpper(c) || IsLower(c)
    case Upper => IsUpper(c)
    case Alnum => IsDigit(c) || IsUpper(c) || IsLower(c)
    case UpperOrDigit => IsUpper(c) || IsDigit(c)
  }

  /** Every character of `s` is in class `k`. */
  predicate AllIn(k: CharClass, s: string)
  {
    forall i :: 0 <= i < |s| ==> Has(k, s[i])
  }

  /** `s` is a run of `lo` to `hi` characters of class `k`. */
  predicate IsRun(s: string, k: CharClass, lo: nat, hi: nat)
  {
    lo <= |s| <= hi && AllIn(k, s)
  }

  /** No class contains the line separator. */
  lemma NoClassHasNewline(k: CharClass)
    ensures !Has(k, '\n')
  {
  }

  // ---------------------------------------------------------------------
  // Lines, as Ruby's `^` and `$` see them
  // ---------------------------------------------------------------------

  /** The '\n'-separated lines of `s`, empty ones included ("a\n" has lines "a" and ""). */
  function Lines(s: string): (r: seq<string>)
    ensures |r| >= 1
  {
    if s == [] then [[]]
    else
      var rest := Lines(s[1..]);
      if s[0] == '\n' then [[]] + rest
      else [[s[0]] + rest[0]] + rest[1..]
  }

  /** The lines joined back with '\n'. */
  function Join(ls: seq<string>): string
  {
    if ls == [] then []
    else if |ls| == 1 then ls[0]
    else ls[0] + "\n" + Join(ls[1..])
  }

  function LastLine(s: string): string
  {
    var ls := Lines(s);
    ls[|ls| - 1]
  }

  /** Splitting into lines loses nothing, and no line holds a separator. */
  lemma {:induction false} LinesJoin(s: string)
    ensures Join(Lines(s)) == s
    ensures forall l :: l in Lines(s) ==> '\n' !in l
  {
    if s != [] {
      var rest := Lines(s[1..]);
      LinesJoin(s[1..]);
      if s[0] == '\n' {
        assert Lines(s) == [[]] + rest;
        assert Lines(s)[1..] == rest;
      } else {
        var ls := Lines(s);
        assert ls == [[s[0]] + rest[0]] + rest[1..];
        if |rest| == 1 {
          assert Join(ls) == [s[0]] + rest[0];
        } else {
          assert ls[1..] == rest[1..];
          assert Join(rest) == rest[0] + "\n" + Join(rest[1..]);
        }
        forall l | l in ls ensures '\n' !in l {
          if l != ls[0] {
            assert l in rest;
          }
        }
      }
    }
  }

  /** A string without a separator is one line. */
  lemma {:induction false} SingleLine(s: string)
    requires '\n' !in s
    ensures Lines(s) == [s]
  {
    if s != [] {
      assert s[0] != '\n' && '\n' !in s[1..];
      SingleLine(s[1..]);
      assert [s[0]] + s[1..] == s;
    }
  }

  /** A first line `l`, then whatever lines `t` holds. */
  lemma {:induction false} FirstLine(l: string, t: string)
    requires '\n' !in l
    ensures Lines(l + "\n" + t) == [l] + Lines(t)
  {
    var s := l + "\n" + t;
    if l == [] {
      assert s == "\n" + t && s[1..] == t;
    } else {
      assert s[0] == l[0] && s[1..] == l[1..] + "\n" + t;
      FirstLine(l[1..], t);
      assert [l[0]] + l[1..] == l;
    }
  }

  /** Whatever comes before the last separator does not change the last line. */
  lemma {:induction false} LastLineAfter(t: string, l: string)
    ensures LastLine(t + "\n" + l) == LastLine(l)
    ensures |Lines(t + "\n" + l)| >= 2
  {
    var s := t + "\n" + l;
    if t == [] {
      assert s == "\n" + l && s[1..] == l;
    } else {
      assert s[0] == t[0] && s[1..] == t[1..] + "\n" + l;
      LastLineAfter(t[1..], l);
    }
  }

  // ---------------------------------------------------------------------
  // Patterns and their matcher
  // ---------------------------------------------------------------------

  datatype Piece =
    | Run(k: CharClass, lo: nat, hi: nat)   // [class]{lo,hi}
    | Lit(text: string)                     // a literal infix such as KR or PAPA
    | Opt(k: CharClass, n: nat)             // ([class]{n})?

  /** `\A...\z`, `^...$` and `^...\z`. */
  datatype Anchor = Whole | AnyLine | LastLineOnly

  datatype Format = Format(anchor: Anchor, pieces: seq<Piece>)

  function Size(ps: seq<Piece>): nat
  {
    if ps == [] then 0 else (if ps[0].Opt? then 2 else 1) + Size(ps[1..])
  }

  /** Does the whole of `s` match `ps`? Every way of splitting `s` is tried. */
  function MatchAll(ps: seq<Piece>, s: string): bool
    decreases |s|, Size(ps)
  {
    if ps == [] then s == []
    else
      match ps[0]
      case Lit(t) => t <= s && MatchAll(ps[1..], s[|t|..])
      case Run(k, lo, hi) =>
        assert ([Run(k, 0, 0)] + ps[1..])[1..] == ps[1..];
        if lo > 0 then
          hi > 0 && s != [] && Has(k, s[0]) && MatchAll([Run(k, lo - 1, hi - 1)] + ps[1..], s[1..])
        else
          MatchAll(ps[1..], s)
          || (hi > 0 && s != [] && Has(k, s[0]) && MatchAll([Run(k, 0, hi - 1)] + ps[1..], s[1..]))
      case Opt(k, n) =>
        assert ([Run(k, n, n)] + ps[1..])[1..] == ps[1..];
        MatchAll([Run(k, n, n)] + ps[1..], s) || MatchAll(ps[1..], s)
  }

  /** Ruby's `Regexp#match?` for a pattern of this subset. */
  function Accepts(f: Format, s: string): bool
  {
    match f.anchor
    case Whole => MatchAll(f.pieces, s)
    case AnyLine => exists l :: l in Lines(s) && MatchAll(f.pieces, l)
    case LastLineOnly => MatchAll(f.pieces, LastLine(s))
  }

  /**
   * A line-anchored pattern judges one line, not the value: once some line
   * matches, any further lines are accepted with it ("ABCDEF12\nxyz" passes
   * `^...$`), and for `^...\z` only the text after the last separator counts.
   */
  lemma AnyLineAcceptsMore(f: Format, l: string, t: string)
    requires f.anchor == AnyLine && '\n' !in l
    ensures Accepts(f, l + "\n" + t) <==> Accepts(f, l) || Accepts(f, t)
  {
    FirstLine(l, t);
    SingleLine(l);
    var ls := Lines(l + "\n" + t);
    assert ls == [l] + Lines(t);
    if Accepts(f, t) {
      var m :| m in Lines(t) && MatchAll(f.pieces, m);
      assert m in ls;
    }
    if Accepts(f, l + "\n" + t) {
      var m :| m in ls && MatchAll(f.pieces, m);
      if m != l {
        assert m in Lines(t);
      }
    }
  }

  lemma LastLineOnlyIgnoresEarlier(f: Format, t: string, l: string)
    requires f.anchor == LastLineOnly
    ensures Accepts(f, t + "\n" + l) <==> Accepts(f, l)
  {
    LastLineAfter(t, l);
  }

  // ---------------------------------------------------------------------
  // What the pieces mean
  // ---------------------------------------------------------------------

  /** A fixed-count run in front: its characters are the first `n` of `s`. */
  lemma {:induction false} FixedRunThen(k: CharClass, n: nat, rest: seq<Piece>, s: string)
    ensures MatchAll([Run(k, n, n)] + rest, s)
        <==> n <= |s| && AllIn(k, s[..n]) && MatchAll(rest, s[n..])
    decreases n
  {
    var ps := [Run(k, n, n)] + rest;
    assert ps[1..] == rest;
    if n > 0 && s != [] {
      FixedRunThen(k, n - 1, rest, s[1..]);
      if n <= |s| {
        assert s[1..][n - 1..] == s[n..];
        assert s[..n] == [s[0]] + s[1..][..n - 1];
      }
    }
  }

  /** A literal infix in front: `s` starts with it. */
  lemma LitThen(t: string, rest: seq<Piece>, s: string)
    ensures MatchAll([Lit(t)] + rest, s) <==> t <= s && MatchAll(rest, s[|t|..])
  {
    assert ([Lit(t)] + rest)[1..] == rest;
  }

  /** A pattern that is one run matches exactly the runs of that class and length. */
  lemma {:induction false} SingleRun(k: CharClass, lo: nat, hi: nat, s: string)
    ensures MatchAll([Run(k, lo, hi)], s) <==> IsRun(s, k, lo, hi)
    decreases |s|
  {
    var ps := [Run(k, lo, hi)];
    assert ps[1..] == [];
    if s != [] {
      if lo > 0 {
        if hi > 0 {
          SingleRun(k, lo - 1, hi - 1, s[1..]);
          assert [Run(k, lo - 1, hi - 1)] + ps[1..] == [Run(k, lo - 1, hi - 1)];
        }
      } else if hi > 0 {
        SingleRun(k, 0, hi - 1, s[1..]);
        assert [Run(k, 0, hi - 1)] + ps[1..] == [Run(k, 0, hi - 1)];
      }
      assert AllIn(k, s) <==> Has(k, s[0]) && AllIn(k, s[1..]) by {
        if Has(k, s[0]) && AllIn(k, s[1..]) {
          forall i | 0 <= i < |s| ensures Has(k, s[i]) {
            if i > 0 { assert s[i] == s[1..][i - 1]; }
          }
        }
      }
    }
  }

  /** An optional fixed group at the end: nothing, or exactly `n` characters of its class. */
  lemma OptAtEnd(k: CharClass, n: nat, s: string)
    ensures MatchAll([Opt(k, n)], s) <==> s == [] || IsRun(s, k, n, n)
  {
    assert [Run(k, n, n)] + [Opt(k, n)][1..] == [Run(k, n, n)];
    SingleRun(k, n, n, s);
  }

  // ---------------------------------------------------------------------
  // Anchored single runs
  // ---------------------------------------------------------------------

  /** What an anchored single-run pattern accepts, stated without the matcher. */
  predicate RunAt(a: Anchor, s: string, k: CharClass, lo: nat, hi: nat)
  {
    match a
    case Whole => IsRun(s, k, lo, hi)
    case AnyLine => exists l :: l in Lines(s) && IsRun(l, k, lo, hi)
    case LastLineOnly => IsRun(LastLine(s), k, lo, hi)
  }

  lemma RunFormat(a: Anchor, k: CharClass, lo: nat, hi: nat, s: string)
    ensures Accepts(Format(a, [Run(k, lo, hi)]), s) <==> RunAt(a, s, k, lo, hi)
  {
    match a
    case Whole => SingleRun(k, lo, hi, s);
    case LastLineOnly => SingleRun(k, lo, hi, LastLine(s));
    case AnyLine =>
      forall l | l in Lines(s) ensures MatchAll([Run(k, lo, hi)], l) <==> IsRun(l, k, lo, hi) {
        SingleRun(k, lo, hi, l);
      }
  }

  // ---------------------------------------------------------------------
  // The multi-piece shapes the classes use
  // ---------------------------------------------------------------------

  /** `([a-zA-Z]){4}([a-zA-Z]){2}([0-9a-zA-Z]){2}([0-9a-zA-Z]{3})?` */
  const BicPieces := [Run(Letter, 4, 4), Run(Letter, 2, 2), Run(Alnum, 2, 2), Opt(Alnum, 3)]

  /**
   * The layout of a business identifier code (ISO 9362): four letters for the
   * institution, two letters for the country, two letters or digits for the
   * location, and optionally three letters or digits for the branch.
   */
  predicate Bic(s: string)
  {
    && (|s| == 8 || |s| == 11)
    && AllIn(Letter, s[..4])
    && AllIn(Letter, s[4..6])
    && AllIn(Alnum, s[6..8])
    && AllIn(Alnum, s[8..])
  }

  lemma BicMeaning(s: string)
    ensures MatchAll(BicPieces, s) <==> Bic(s)
  {
    var r1 := [Run(Letter, 2, 2), Run(Alnum, 2, 2), Opt(Alnum, 3)];
    var r2 := [Run(Alnum, 2, 2), Opt(Alnum, 3)];
    var r3 := [Opt(Alnum, 3)];
    assert BicPieces == [Run(Letter, 4, 4)] + r1;
    assert r1 == [Run(Letter, 2, 2)] + r2;
    assert r2 == [Run(Alnum, 2, 2)] + r3;
    FixedRunThen(Letter, 4, r1, s);
    if |s| >= 4 {
      var t := s[4..];
      FixedRunThen(Letter, 2, r2, t);
      if |t| >= 2 {
        var u := t[2..];
        FixedRunThen(Alnum, 2, r3, u);
        if |u| >= 2 {
          OptAtEnd(Alnum, 3, u[2..]);
          assert t[..2] == s[4..6];
          assert u[..2] == s[6..8];
          assert u[2..] == s[8..];
        }
      }
    }
  }

  /** `^(bic)$`: some line is a business identifier code. */
  lemma AnyLineBic(s: string)
    ensures Accepts(Format(AnyLine, BicPieces), s) <==> exists l :: l in Lines(s) && Bic(l)
  {
    forall l | l in Lines(s) ensures MatchAll(BicPieces, l) <==> Bic(l) {
      BicMeaning(l);
    }
  }

  /** `[class]{n}` + a literal + `[class]{lo,hi}`, as in `[A-Za-z]{4}KR[A-Za-z0-9]{2,5}`. */
  lemma {:induction false} InfixMeaning(k1: CharClass, n: nat, t: string, k2: CharClass, lo: nat, hi: nat, s: string)
    ensures MatchAll([Run(k1, n, n), Lit(t), Run(k2, lo, hi)], s)
        <==> && n + |t| + lo <= |s| <= n + |t| + hi
             && AllIn(k1, s[..n])
             && s[n..n + |t|] == t
             && AllIn(k2, s[n + |t|..])
  {
    var rest := [Lit(t), Run(k2, lo, hi)];
    assert [Run(k1, n, n), Lit(t), Run(k2, lo, hi)] == [Run(k1, n, n)] + rest;
    FixedRunThen(k1, n, rest, s);
    if n <= |s| {
      var u := s[n..];
      assert rest == [Lit(t)] + [Run(k2, lo, hi)];
      LitThen(t, [Run(k2, lo, hi)], u);
      if |t| <= |u| {
        assert t <= u <==> u[..|t|] == t;
        assert u[..|t|] == s[n..n + |t|];
        assert u[|t|..] == s[n + |t|..];
        SingleRun(k2, lo, hi, u[|t|..]);
      }
    }
  }

  /** A literal prefix then a fixed run, as in `MG([0-9]){25}`. */
  lemma PrefixThenRun(t: string, k: CharClass, n: nat, s: string)
    ensures MatchAll([Lit(t), Run(k, n, n)], s)
        <==> |s| == |t| + n && s[..|t|] == t && AllIn(k, s[|t|..])
  {
    assert [Lit(t), Run(k, n, n)] == [Lit(t)] + [Run(k, n, n)];
    LitThen(t, [Run(k, n, n)], s);
    if |t| <= |s| {
      assert t <= s <==> s[..|t|] == t;
      SingleRun(k, n, n, s[|t|..]);
    }
  }
}
