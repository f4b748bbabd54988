/**
 * The parts of Java's String and Integer library that the spreadsheet engine
 * relies on, written out over `string` (= seq<char>): String.trim, String.split
 * on a single character, splitting around delimiter characters while keeping
 * them, and decimal numerals.
 */
module Text {
  import opened Wrappers

  predicate IsDigit(c: char) { '0' <= c <= '9' }

  predicate IsUpper(c: char) { 'A' <= c <= 'Z' }

  /** String.trim treats every character up to U+0020 as white space. */
  predicate IsSpace(c: char) { c <= ' ' }

  /** `\d*`: ASCII digits only (possibly none). */
  predicate OnlyDigits(s: string) {
    forall i | 0 <= i < |s| :: IsDigit(s[i])
  }

  /** `\d+` */
  predicate AllDigits(s: string) {
    |s| > 0 && OnlyDigits(s)
  }

  function DigitValue(c: char): nat
    requires IsDigit(c)
  {
    c as int - '0' as int
  }

  function DigitChar(d: nat): (c: char)
    requires d < 10
    ensures IsDigit(c) && DigitValue(c) == d
  {
    ('0' as int + d) as char
  }

  /** The value of a decimal digit string, most significant digit first. */
  function DigitsValue(s: string): nat
    requires OnlyDigits(s)
    decreases |s|
  {
    if s == [] then 0 else 10 * DigitsValue(s[..|s| - 1]) + DigitValue(s[|s| - 1])
  }

  /** Integer.toString of a non-negative value: the shortest decimal numeral. */
  function NatToString(n: nat): (s: string)
    ensures AllDigits(s)
    decreases n
  {
    if n < 10 then [DigitChar(n)] else NatToString(n / 10) + [DigitChar(n % 10)]
  }

  /** Integer.toString, also for negative values. */
  function IntToString(i: int): string {
    if i < 0 then "-" + NatToString(-i) else NatToString(i)
  }

  /** Reading back a numeral that Integer.toString wrote gives the number. */
  lemma {:induction false} NatToStringRoundTrip(n: nat)
    ensures DigitsValue(NatToString(n)) == n
  {
    if n >= 10 {
      NatToStringRoundTrip(n / 10);
      var s := NatToString(n);
      assert s[..|s| - 1] == NatToString(n / 10);
    }
  }

  predicate StartsWith(s: string, prefix: string) {
    |prefix| <= |s| && s[..|prefix|] == prefix
  }

  predicate EndsWith(s: string, suffix: string) {
    |suffix| <= |s| && s[|s| - |suffix|..] == suffix
  }

  /** Number of leading upper-case ASCII letters. */
  function LeadingUpper(s: string): (n: nat)
    ensures n <= |s|
    ensures forall i | 0 <= i < n :: IsUpper(s[i])
    ensures n < |s| ==> !IsUpper(s[n])
    decreases |s|
  {
    if s != [] && IsUpper(s[0]) then 1 + LeadingUpper(s[1..]) else 0
  }

  lemma {:induction false} LeadingUpperOfConcat(letters: string, rest: string)
    requires forall i | 0 <= i < |letters| :: IsUpper(letters[i])
    requires rest == [] || !IsUpper(rest[0])
    ensures LeadingUpper(letters + rest) == |letters|
  {
    if letters != [] {
      assert (letters + rest)[1..] == letters[1..] + rest;
      LeadingUpperOfConcat(letters[1..], rest);
    }
  }

  /** First index holding one of `cs`, or -1. */
  function IndexOfAny(s: string, cs: set<char>): (i: int)
    ensures -1 <= i < |s|
    ensures i == -1 <==> forall k | 0 <= k < |s| :: s[k] !in cs
    ensures i >= 0 ==> s[i] in cs && forall k | 0 <= k < i :: s[k] !in cs
    decreases |s|
  {
    if s == [] then -1
    else if s[0] in cs then 0
    else
      var j := IndexOfAny(s[1..], cs);
      if j < 0 then -1 else j + 1
  }

  // ---------------------------------------------------------------------------
  // String.trim

  function TrimStart(s: string): (r: string)
    ensures |r| <= |s| && r == s[|s| - |r|..]
    ensures r == [] || !IsSpace(r[0])
    ensures forall i | 0 <= i < |s| - |r| :: IsSpace(s[i])
    decreases |s|
  {
    if s != [] && IsSpace(s[0]) then TrimStart(s[1..]) else s
  }

  function TrimEnd(s: string): (r: string)
    ensures |r| <= |s| && r == s[..|r|]
    ensures r == [] || !IsSpace(r[|r| - 1])
    ensures forall i | |r| <= i < |s| :: IsSpace(s[i])
    decreases |s|
  {
    if s != [] && IsSpace(s[|s| - 1]) then TrimEnd(s[..|s| - 1]) else s
  }

  /** String.trim: drop white space (chars <= U+0020) at both ends. */
  function Trim(s: string): (r: string)
    ensures r == [] || (!IsSpace(r[0]) && !IsSpace(r[|r| - 1]))
  {
    TrimEnd(TrimStart(s))
  }

  /** Trimming only removes white space: every other character survives. */
  lemma {:induction false} TrimKeeps(s: string, i: nat)
    requires i < |s| && !IsSpace(s[i])
    ensures s[i] in Trim(s)
  {
    var t := TrimStart(s);
    var k := i - (|s| - |t|);
    assert 0 <= k < |t| && t[k] == s[i];
    var r := TrimEnd(t);
    assert k < |r| && r[k] == t[k];
  }

  lemma {:induction false} TrimNoop(s: string)
    requires s == [] || (!IsSpace(s[0]) && !IsSpace(s[|s| - 1]))
    ensures Trim(s) == s
  {
  }

  // ---------------------------------------------------------------------------
  // String.split(String.valueOf(sep)) with limit 0

  /** The substrings between successive occurrences of `sep`, empty ones included. */
  function Pieces(s: string, sep: char): (ps: seq<string>)
    ensures |ps| >= 1
    ensures forall p | p in ps :: sep !in p
    decreases |s|
  {
    if s == [] then [""]
    else
      var rest := Pieces(s[1..], sep);
      if s[0] == sep then [""] + rest else [[s[0]] + rest[0]] + rest[1..]
  }

  function DropTrailingEmpty(ps: seq<string>): (r: seq<string>)
    ensures |r| <= |ps| && r == ps[..|r|]
    ensures r == [] || r[|r| - 1] != ""
    ensures forall i | |r| <= i < |ps| :: ps[i] == ""
    decreases |ps|
  {
    if ps != [] && ps[|ps| - 1] == "" then DropTrailingEmpty(ps[..|ps| - 1]) else ps
  }

  /**
   * Java's String.split on a one-character separator: with no separator the
   * text comes back whole (so "" gives [""]); otherwise the pieces between
   * separators, with trailing empty pieces removed.
   */
  function SplitOn(s: string, sep: char): (parts: seq<string>)
    ensures forall p | p in parts :: sep !in p
  {
    if sep !in s then [s] else DropTrailingEmpty(Pieces(s, sep))
  }

  lemma {:induction false} PiecesCover(s: string, sep: char, i: nat)
    requires i < |s| && s[i] != sep
    ensures exists p | p in Pieces(s, sep) :: s[i] in p
    decreases |s|
  {
    var ps := Pieces(s, sep);
    var rest := Pieces(s[1..], sep);
    if i == 0 {
      assert ps[0] == [s[0]] + rest[0];
      assert ps[0] in ps && s[i] in ps[0];
    } else {
      PiecesCover(s[1..], sep, i - 1);
      assert s[1..][i - 1] == s[i];
      var p :| p in rest && s[i] in p;
      var k :| 0 <= k < |rest| && rest[k] == p;
      if s[0] == sep {
        assert ps == [""] + rest;
        assert ps[k + 1] == p;
      } else if k == 0 {
        assert ps[0] == [s[0]] + p;
        assert s[i] in ps[0];
      } else {
        assert ps == [[s[0]] + rest[0]] + rest[1..];
        assert ps[k] == p;
      }
    }
  }

  /** Splitting loses no character other than the separator. */
  lemma {:induction false} SplitOnCovers(s: string, sep: char, i: nat)
    requires i < |s| && s[i] != sep
    ensures exists p | p in SplitOn(s, sep) :: s[i] in p
  {
    if sep in s {
      PiecesCover(s, sep, i);
      var ps := Pieces(s, sep);
      var p :| p in ps && s[i] in p;
      var k :| 0 <= k < |ps| && ps[k] == p;
      var r := DropTrailingEmpty(ps);
      assert k < |r| && r[k] == p;
      assert r[k] in r;
    } else {
      assert SplitOn(s, sep) == [s];
      assert s[i] in s;
      assert s in SplitOn(s, sep);
    }
  }

  lemma {:induction false} PiecesOfUnseparated(a: string, rest: string, sep: char)
    requires sep !in a
    ensures Pieces(a + rest, sep) == [a + Pieces(rest, sep)[0]] + Pieces(rest, sep)[1..]
  {
    if a != [] {
      assert (a + rest)[1..] == a[1..] + rest;
      PiecesOfUnseparated(a[1..], rest, sep);
      assert [a[0]] + (a[1..] + Pieces(rest, sep)[0]) == a + Pieces(rest, sep)[0];
    } else {
      var ps := Pieces(rest, sep);
      assert a + rest == rest;
      assert a + ps[0] == ps[0];
      assert ps == [ps[0]] + ps[1..];
    }
  }

  /** `a:b` with no other separator splits into exactly its two sides. */
  lemma {:induction false} SplitOnTwo(a: string, b: string, sep: char)
    requires sep !in a && sep !in b && b != []
    ensures SplitOn(a + [sep] + b, sep) == [a, b]
  {
    var s := a + [sep] + b;
    assert s == a + ([sep] + b);
    assert Pieces([], sep) == [""];
    PiecesOfUnseparated(b, [], sep);
    assert b + [] == b;
    assert Pieces(b, sep) == [b];
    assert ([sep] + b)[1..] == b;
    assert Pieces([sep] + b, sep) == ["", b];
    PiecesOfUnseparated(a, [sep] + b, sep);
    assert a + "" == a;
    assert Pieces(s, sep) == [a, b];
    assert s[|a|] == sep;
  }

  // ---------------------------------------------------------------------------
  // String.split on a look-around regex such as "(?<=[-+*/])|(?=[-+*/])":
  // the text is cut before and after every delimiter character, so each
  // delimiter becomes a token of its own.

  /** Length of the leading run of non-delimiter characters. */
  function RunLength(s: string, delims: set<char>): (n: nat)
    ensures n <= |s|
    ensures forall i | 0 <= i < n :: s[i] !in delims
    ensures n < |s| ==> s[n] in delims
    decreases |s|
  {
    if s == [] || s[0] in delims then 0 else 1 + RunLength(s[1..], delims)
  }

  function Split(s: string, delims: set<char>): (ts: seq<string>)
    ensures forall i | 0 <= i < |ts| :: ts[i] != []
    ensures ts == [] <==> s == []
    decreases |s|
  {
    if s == [] then []
    else if s[0] in delims then [[s[0]]] + Split(s[1..], delims)
    else
      var n := RunLength(s, delims);
      [s[..n]] + Split(s[n..], delims)
  }

  /** A well-formed token: a single delimiter, or a non-empty run free of delimiters. */
  predicate IsPiece(t: string, delims: set<char>) {
    (|t| == 1 && t[0] in delims) || (|t| > 0 && forall i | 0 <= i < |t| :: t[i] !in delims)
  }

  function Concat(ts: seq<string>): string
    decreases |ts|
  {
    if ts == [] then "" else ts[0] + Concat(ts[1..])
  }

  /** What the zero-width regex split returns; an empty text gives one empty token. */
  function Tokenize(s: string, delims: set<char>): (ts: seq<string>)
    ensures ts != [] && (ts == [""] <==> s == "")
  {
    if s == "" then [""]
    else
      var ts := Split(s, delims);
      assert ts[0] != [];
      ts
  }

  /**
   * The split loses and adds nothing, every token is one delimiter or one
   * delimiter-free run, and two runs are never adjacent.
   */
  lemma {:induction false} SplitShape(s: string, delims: set<char>)
    ensures Concat(Split(s, delims)) == s
    ensures forall t | t in Split(s, delims) :: IsPiece(t, delims)
    ensures forall i | 0 <= i < |Split(s, delims)| - 1 ::
              Split(s, delims)[i][0] in delims || Split(s, delims)[i + 1][0] in delims
    decreases |s|
  {
    if s != [] {
      var ts := Split(s, delims);
      if s[0] in delims {
        SplitShape(s[1..], delims);
        assert ts[1..] == Split(s[1..], delims);
        assert s == [s[0]] + s[1..];
      } else {
        var n := RunLength(s, delims);
        SplitShape(s[n..], delims);
        assert ts[1..] == Split(s[n..], delims);
        assert s == s[..n] + s[n..];
        if |ts| > 1 {
          assert s[n..] != [] && s[n] in delims;
          assert Split(s[n..], delims)[0] == [s[n]];
        }
      }
    }
  }

  lemma {:induction false} ConcatCovers(ts: seq<string>, i: nat)
    requires i < |Concat(ts)|
    ensures exists t | t in ts :: Concat(ts)[i] in t
    decreases |ts|
  {
    assert ts != [];
    assert Concat(ts) == ts[0] + Concat(ts[1..]);
    if i < |ts[0]| {
      assert Concat(ts)[i] == ts[0][i];
      assert ts[0] in ts;
    } else {
      ConcatCovers(ts[1..], i - |ts[0]|);
      assert Concat(ts)[i] == Concat(ts[1..])[i - |ts[0]|];
      var t :| t in ts[1..] && Concat(ts[1..])[i - |ts[0]|] in t;
      assert t in ts;
    }
  }

  /** Every character of the text lies in some token. */
  lemma {:induction false} SplitCovers(s: string, delims: set<char>, i: nat)
    requires i < |s|
    ensures exists t | t in Split(s, delims) :: s[i] in t
  {
    SplitShape(s, delims);
    ConcatCovers(Split(s, delims), i);
  }

  lemma {:induction false} RunLengthOfConcat(u: string, w: string, delims: set<char>)
    requires RunLength(u, delims) < |u| || w == [] || w[0] in delims
    ensures RunLength(u + w, delims) == RunLength(u, delims)
    decreases |u|
  {
    if u != [] && u[0] !in delims {
      assert (u + w)[1..] == u[1..] + w;
      RunLengthOfConcat(u[1..], w, delims);
    } else if u == [] {
      assert u + w == w;
    }
  }

  /** Cutting the text at a delimiter boundary cuts its token list there too. */
  lemma {:induction false} SplitConcat(u: string, w: string, delims: set<char>)
    requires u == [] || w == [] || u[|u| - 1] in delims || w[0] in delims
    ensures Split(u + w, delims) == Split(u, delims) + Split(w, delims)
    decreases |u|
  {
    var uw := u + w;
    if u == [] {
      assert uw == w;
    } else if w == [] {
      assert uw == u;
    } else if u[0] in delims {
      assert uw[0] == u[0];
      assert uw[1..] == u[1..] + w;
      SplitConcat(u[1..], w, delims);
      assert Split(uw, delims) == [[u[0]]] + Split(uw[1..], delims);
      assert Split(u, delims) == [[u[0]]] + Split(u[1..], delims);
    } else {
      var n := RunLength(u, delims);
      RunLengthOfConcat(u, w, delims);
      assert uw[0] == u[0];
      assert uw[..n] == u[..n];
      assert uw[n..] == u[n..] + w;
      assert u[n..] == [] || u[n..][|u[n..]| - 1] == u[|u| - 1];
      SplitConcat(u[n..], w, delims);
      assert Split(uw, delims) == [uw[..n]] + Split(uw[n..], delims);
      assert Split(u, delims) == [u[..n]] + Split(u[n..], delims);
    }
  }

  /** A single piece splits into itself. */
  lemma {:induction false} PieceSplit(t: string, delims: set<char>)
    requires IsPiece(t, delims)
    ensures Split(t, delims) == [t]
  {
    if t[0] in delims {
      assert t == [t[0]] && t[1..] == [];
    } else {
      var n := RunLength(t, delims);
      assert n == |t|;
      assert t[..n] == t && t[n..] == [];
    }
  }

  /**
   * Splitting the concatenation of well-formed pieces, no two runs side by
   * side, gives the pieces back: the converse of SplitShape.
   */
  lemma {:induction false} SplitOfPieces(ts: seq<string>, delims: set<char>)
    requires forall i | 0 <= i < |ts| :: ts[i] != [] && IsPiece(ts[i], delims)
    requires forall i, j | 0 <= i < j < |ts| && j == i + 1 :: ts[i][0] in delims || ts[j][0] in delims
    ensures Split(Concat(ts), delims) == ts
    decreases |ts|
  {
    if ts != [] {
      var t, rest := ts[0], ts[1..];
      assert forall i | 0 <= i < |rest| :: rest[i] == ts[i + 1];
      forall i, j | 0 <= i < j < |rest| && j == i + 1
        ensures rest[i][0] in delims || rest[j][0] in delims
      {
        assert rest[i] == ts[i + 1] && rest[j] == ts[j + 1];
      }
      SplitOfPieces(rest, delims);
      if rest != [] {
        assert Concat(rest) == rest[0] + Concat(rest[1..]);
        assert t[0] in delims || ts[1][0] in delims;
      }
      SplitConcat(t, Concat(rest), delims);
      PieceSplit(t, delims);
      assert ts == [t] + rest;
    }
  }

  /** A text with no delimiter is a single token. */
  lemma {:induction false} SplitOfRun(s: string, delims: set<char>)
    requires s != [] && forall i | 0 <= i < |s| :: s[i] !in delims
    ensures Split(s, delims) == [s]
  {
    assert RunLength(s, delims) == |s|;
    assert s[..|s|] == s;
  }

  /** Delimiters that never occur in the text do not change the split. */
  lemma {:induction false} SplitIgnoresAbsent(s: string, delims: set<char>, extra: set<char>)
    requires forall i | 0 <= i < |s| :: s[i] !in extra
    ensures Split(s, delims + extra) == Split(s, delims)
    decreases |s|
  {
    if s != [] {
      if s[0] in delims {
        SplitIgnoresAbsent(s[1..], delims, extra);
      } else {
        RunLengthIgnoresAbsent(s, delims, extra);
        var n := RunLength(s, delims);
        SplitIgnoresAbsent(s[n..], delims, extra);
      }
    }
  }

  lemma {:induction false} RunLengthIgnoresAbsent(s: string, delims: set<char>, extra: set<char>)
    requires forall i | 0 <= i < |s| :: s[i] !in extra
    ensures RunLength(s, delims + extra) == RunLength(s, delims)
    decreases |s|
  {
    if s != [] && s[0] !in delims {
      RunLengthIgnoresAbsent(s[1..], delims, extra);
    }
  }

  /** Regrouping a concatenation of four sequences. */
  lemma {:induction false} Regroup<T>(a: seq<T>, b: seq<T>, c: seq<T>, d: seq<T>)
    ensures a + b + c + d == a + (b + c + d)
  {
  }

  /** A nonempty sequence is its prefix followed by its last element. */
  lemma {:induction false} DropLast<T>(s: seq<T>)
    requires s != []
    ensures s[..|s| - 1] + [s[|s| - 1]] == s
  {
  }
}
