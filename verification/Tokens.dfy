// 410user/libstring/strtok.c cuts a string into tokens in place, and 410kern/boot/util_cmdline.c
// sorts the boot command line's tokens into arguments and environment.

module Tokens {
  import opened CStrings

  const NONE: int := -1   // the null pointer; other pointers into the text are offsets

  ghost predicate Delimiters(delim: string) {
    CString(delim) && forall k :: 0 <= k < |delim| - 1 ==> delim[k] != NUL
  }

  ghost function DelimSet(delim: string): (ds: set<char>)
    requires Delimiters(delim)
    ensures NUL !in ds
  {
    set k | 0 <= k < |delim| - 1 :: delim[k]
  }

  // What a token is made of.
  ghost function Others(ds: set<char>): (cs: set<char>)
    ensures forall c :: c in cs <==> c !in ds && c != NUL
  {
    set c: char | c !in ds && c != NUL
  }

  ghost predicate HasNul(t: string, i: int) { exists k :: 0 <= i <= k < |t| && t[k] == NUL }

  lemma SkipStops(t: string, i: nat, ds: set<char>)
    requires HasNul(t, i) && NUL !in ds
    ensures RunEnd(t, i, ds) < |t| && HasNul(t, RunEnd(t, i, ds))
  {
    var k :| i <= k < |t| && t[k] == NUL;
    assert RunEnd(t, i, ds) <= k;
  }

  // Bytes [at, end) of the text.
  datatype Piece = Piece(at: nat, end: nat)

  // The tokens from i on, in order.
  ghost function Pieces(t: string, i: nat, ds: set<char>): (ps: seq<Piece>)
    requires HasNul(t, i) && NUL !in ds
    decreases |t| - i
  {
    SkipStops(t, i, ds);
    var a := RunEnd(t, i, ds);
    if t[a] == NUL then []
    else
      SkipStops(t, a, Others(ds));
      var e := RunEnd(t, a, Others(ds));
      [Piece(a, e)] + if t[e] == NUL then [] else (HasNulAfter(t, e); Pieces(t, e + 1, ds))
  }

  lemma HasNulAfter(t: string, e: nat)
    requires HasNul(t, e) && t[e] != NUL
    ensures HasNul(t, e + 1)
  {
  }

  // ---------------------------------------------------------------- tokens are the maximal runs

  // The string that starts at 0 has its first NUL at z.
  ghost predicate EndsAt(t: string, z: nat) { z < |t| && t[z] == NUL && forall k :: 0 <= k < z ==> t[k] != NUL }

  // No delimiter inside, and delimiters or the string's ends on both sides.
  ghost predicate MaximalRun(t: string, z: nat, ds: set<char>, p: Piece)
    requires z < |t|
  {
    && p.at < p.end <= z
    && (forall k :: p.at <= k < p.end ==> t[k] !in ds)
    && (p.at == 0 || t[p.at - 1] in ds) && (p.end == z || t[p.end] in ds)
  }

  ghost predicate Ascending(ps: seq<Piece>) { forall j, k :: 0 <= j < k < |ps| ==> ps[j].end < ps[k].at }

  lemma UpTo(t: string, z: nat, i: nat)
    requires EndsAt(t, z) && i <= z
    ensures HasNul(t, i)
  {
  }

  lemma Unfolded(t: string, i: nat, ds: set<char>)
    requires NUL !in ds && HasNul(t, i)
    ensures var a := RunEnd(t, i, ds); a < |t| && HasNul(t, a)
    ensures var a := RunEnd(t, i, ds); t[a] == NUL ==> Pieces(t, i, ds) == []
    ensures var a := RunEnd(t, i, ds);
            t[a] != NUL ==>
              var e := RunEnd(t, a, Others(ds));
              e < |t| && Pieces(t, i, ds) == [Piece(a, e)] + if t[e] == NUL then [] else (SkipStops(t, a, Others(ds)); HasNulAfter(t, e); Pieces(t, e + 1, ds))
  {
    hide RunEnd, Others, HasNul;
    SkipStops(t, i, ds);
    SkipStops(t, RunEnd(t, i, ds), Others(ds));
  }

  // Where the search for a token from i ends up.
  lemma FirstPiece(t: string, z: nat, i: nat, ds: set<char>)
    requires EndsAt(t, z) && i <= z && NUL !in ds && (i == 0 || t[i - 1] in ds)
    ensures HasNul(t, i)
    ensures var a := RunEnd(t, i, ds);
            i <= a <= z
            && if a == z then Pieces(t, i, ds) == []
               else HasNul(t, a)
                    && var e := RunEnd(t, a, Others(ds));
                       a < e <= z && MaximalRun(t, z, ds, Piece(a, e))
                       && Pieces(t, i, ds) == [Piece(a, e)] + if e == z then [] else (UpTo(t, z, e + 1); Pieces(t, e + 1, ds))
  {
    hide RunEnd, Others, Pieces;
    UpTo(t, z, i);
    Unfolded(t, i, ds);
  }

  // A maximal run behind i is the first piece or lies behind it.
  lemma RunsBehind(t: string, z: nat, i: nat, ds: set<char>, p: Piece)
    requires EndsAt(t, z) && i <= z && NUL !in ds && (i == 0 || t[i - 1] in ds)
    requires MaximalRun(t, z, ds, p) && i <= p.at
    ensures var a := RunEnd(t, i, ds); var e := RunEnd(t, a, Others(ds));
            a < z && (p == Piece(a, e) || (e < z && p.at > e))
  {
    FirstPiece(t, z, i, ds);
    var a := RunEnd(t, i, ds);
    var e := RunEnd(t, a, Others(ds));
    assert t[p.at] !in ds;
    assert p.at > 0 ==> t[p.at - 1] !in Others(ds);
    assert t[p.end] !in Others(ds);
    assert t[e] in ds || t[e] == NUL;
  }

  // The tokens are the maximal runs, all of them, in order, and there is room for each in the text.
  lemma {:induction false} PiecesAreRuns(t: string, z: nat, i: nat, ds: set<char>)
    requires EndsAt(t, z) && i <= z && NUL !in ds && (i == 0 || t[i - 1] in ds)
    ensures HasNul(t, i)
    ensures forall p: Piece :: p in Pieces(t, i, ds) <==> i <= p.at && MaximalRun(t, z, ds, p)
    ensures Ascending(Pieces(t, i, ds)) && |Pieces(t, i, ds)| <= z - i
    decreases z - i
  {
    hide HasNul, MaximalRun, Pieces, RunEnd, Others;
    FirstPiece(t, z, i, ds);
    var a := RunEnd(t, i, ds);
    forall p: Piece | i <= p.at && MaximalRun(t, z, ds, p) ensures p in Pieces(t, i, ds) {
      RunsBehind(t, z, i, ds, p);
      var e := RunEnd(t, a, Others(ds));
      if p != Piece(a, e) { PiecesAreRuns(t, z, e + 1, ds); }
    }
    if a < z {
      var e := RunEnd(t, a, Others(ds));
      if e < z {
        RunEnds(t, z, ds, Piece(a, e));
        PiecesAreRuns(t, z, e + 1, ds);
      }
    }
  }

  lemma RunEnds(t: string, z: nat, ds: set<char>, p: Piece)
    requires EndsAt(t, z) && MaximalRun(t, z, ds, p)
    ensures p.end == z || (p.end < z && t[p.end] in ds)
  {
  }

  // Only the text from i on matters.
  lemma {:induction false} RunFrame(t: string, u: string, i: nat, cs: set<char>)
    requires |t| == |u| && i <= |t| && t[i..] == u[i..]
    ensures RunEnd(t, i, cs) == RunEnd(u, i, cs)
    decreases |t| - i
  {
    if i < |t| {
      assert t[i] == t[i..][0] == u[i..][0] == u[i];
      assert t[i + 1..] == t[i..][1..] == u[i..][1..] == u[i + 1..];
      RunFrame(t, u, i + 1, cs);
    }
  }

  lemma {:induction false} PiecesFrame(t: string, u: string, i: nat, ds: set<char>)
    requires |t| == |u| && i <= |t| && t[i..] == u[i..] && NUL !in ds && HasNul(t, i)
    ensures HasNul(u, i) && Pieces(t, i, ds) == Pieces(u, i, ds)
    decreases |t| - i
  {
    hide RunEnd, Others, HasNul, Pieces;
    SameTail(t, u, i, i);
    Unfolded(t, i, ds);
    Unfolded(u, i, ds);
    RunFrame(t, u, i, ds);
    SkipStops(t, i, ds);
    var a := RunEnd(t, i, ds);
    SameTail(t, u, i, a);
    if t[a] != NUL {
      RunFrame(t, u, a, Others(ds));
      SkipStops(t, a, Others(ds));
      var e := RunEnd(t, a, Others(ds));
      SameTail(t, u, i, e);
      if t[e] != NUL {
        SameTail(t, u, i, e + 1);
        HasNulAfter(t, e);
        PiecesFrame(t, u, e + 1, ds);
      }
    }
  }

  lemma SameTail(t: string, u: string, i: nat, j: nat)
    requires |t| == |u| && i <= j <= |t| && t[i..] == u[i..]
    ensures t[j..] == u[j..] && (j < |t| ==> t[j] == u[j]) && (HasNul(t, j) ==> HasNul(u, j))
  {
    assert forall k :: j <= k < |t| ==> t[k] == t[i..][k - i] == u[i..][k - i] == u[k];
  }

  // ---------------------------------------------------------------- strtok

  // Looks for c among the delimiters, up to the NUL behind them.
  method IsDelimiter(c: char, delim: string) returns (found: bool)
    requires Delimiters(delim)
    ensures found <==> c in DelimSet(delim)
  {
    var k := 0;
    while delim[k] != NUL
      invariant 0 <= k < |delim| && c !in delim[..k]
      decreases |delim| - k
    {
      if c == delim[k] { return true; }
      k := k + 1;
    }
    assert delim[..k] == delim[..|delim| - 1];
    return false;
  }

  // Looks for c among the delimiters and the NUL behind them.
  method IsStop(c: char, delim: string) returns (found: bool)
    requires Delimiters(delim)
    ensures found <==> c !in Others(DelimSet(delim))
  {
    var k := 0;
    if delim[k] == c { return true; }
    while delim[k] != NUL
      invariant 0 <= k < |delim| && forall j :: 0 <= j <= k ==> delim[j] != c
      decreases |delim| - k
    {
      k := k + 1;
      if delim[k] == c { return true; }
    }
    return false;
  }

  // What one call does: no token is left, or one is cut out and the next search starts behind it.
  ghost predicate Took(before: string, p: int, ds: set<char>, tok: int, now: string, last: int)
    requires NUL !in ds && HasNul(before, p)
  {
    var a := RunEnd(before, p, ds);
    a < |before|
    && if before[a] == NUL then tok == last == NONE && now == before
       else var e := RunEnd(before, a, Others(ds));
            e < |before| && tok == a
            && if before[e] == NUL then last == NONE && now == before else last == e + 1 && now == before[e := NUL]
  }

  class Tokenizer {
    const text: array<char>
    var last: int

    constructor (text: array<char>)
      ensures this.text == text && last == NONE
    {
      this.text := text;
      last := NONE;
    }

    method SkipDelimiters(start: int, delim: string) returns (p: int)
      requires Delimiters(delim) && HasNul(text[..], start)
      ensures p == RunEnd(text[..], start, DelimSet(delim)) < text.Length
    {
      p := start;
      ghost var ds := DelimSet(delim);
      SkipStops(text[..], p, ds);
      var skip := IsDelimiter(text[p], delim);
      while skip
        invariant start <= p < text.Length && RunEnd(text[..], start, ds) == RunEnd(text[..], p, ds) < text.Length
        invariant skip <==> text[p] in ds
        decreases text.Length - p
      {
        p := p + 1;
        skip := IsDelimiter(text[p], delim);
      }
    }

    method ScanToken(start: int, delim: string) returns (p: int)
      requires Delimiters(delim) && HasNul(text[..], start)
      ensures p == RunEnd(text[..], start, Others(DelimSet(delim))) < text.Length
    {
      p := start;
      ghost var cs := Others(DelimSet(delim));
      SkipStops(text[..], p, cs);
      var stop := IsStop(text[p], delim);
      while !stop
        invariant start <= p < text.Length && RunEnd(text[..], start, cs) == RunEnd(text[..], p, cs) < text.Length
        invariant stop <==> text[p] !in cs
        decreases text.Length - p
      {
        p := p + 1;
        stop := IsStop(text[p], delim);
      }
    }

    // s is where to start, or NONE to go on where the last call stopped.
    method Strtok(s: int, delim: string) returns (tok: int)
      requires Delimiters(delim)
      requires s == NONE || HasNul(text[..], s)
      requires s == NONE && last != NONE ==> HasNul(text[..], last)
      modifies this, text
      ensures s == NONE && old(last) == NONE ==> tok == NONE && last == NONE && text[..] == old(text[..])
      ensures s != NONE || old(last) != NONE ==> Took(old(text[..]), if s != NONE then s else old(last), DelimSet(delim), tok, text[..], last)
    {
      hide DelimSet, Others, RunEnd, Delimiters;
      var p := s;
      if p == NONE {
        p := last;
        if p == NONE { return NONE; }
      }
      SkipStops(text[..], p, DelimSet(delim));
      tok := SkipDelimiters(p, delim);
      if text[tok] == NUL {
        tok, last := NONE, NONE;
        return;
      }
      SkipStops(text[..], tok, Others(DelimSet(delim)));
      p := ScanToken(tok, delim);
      if text[p] == NUL {
        last := NONE;
      } else {
        text[p] := NUL;
        last := p + 1;
      }
    }
  }

  // ---------------------------------------------------------------- repeated calls

  // What is still to be found.
  ghost function Rest(t: string, last: int, ds: set<char>): seq<Piece>
    requires NUL !in ds && (last == NONE || HasNul(t, last))
  {
    if last == NONE then [] else Pieces(t, last, ds)
  }

  // A token stands in the text as it did at first, and ends there.
  ghost predicate Stands(before: string, now: string, p: Piece) {
    && p.at < p.end < |before| == |now|
    && (forall k :: p.at <= k < p.end ==> now[k] == before[k]) && now[p.end] == NUL
  }

  // The calls so far have cut out the first of the tokens and left the text behind them alone.
  ghost predicate Progress(before: string, now: string, found: seq<Piece>, last: int, ds: set<char>)
    requires NUL !in ds
  {
    && |now| == |before| && HasNul(before, 0)
    && (last == NONE || (HasNul(before, last) && now[last..] == before[last..]))
    && found + Rest(before, last, ds) == Pieces(before, 0, ds)
    && forall p <- found :: Stands(before, now, p) && (last == NONE || p.end < last)
  }

  // A call finds the next token of the text as it was at first.
  lemma OneMore(first: string, before: string, found: seq<Piece>, p: int, ds: set<char>, tok: int, now: string, last: int)
    requires NUL !in ds && p != NONE && Progress(first, before, found, p, ds)
    requires HasNul(before, p) && Took(before, p, ds, tok, now, last)
    ensures tok == NONE ==> last == NONE && found == Pieces(first, 0, ds) && Progress(first, now, found, last, ds)
    ensures tok != NONE ==> tok >= 0 && |found| < |Pieces(first, 0, ds)| && Pieces(first, 0, ds)[|found|].at == tok
                            && Progress(first, now, found + [Pieces(first, 0, ds)[|found|]], last, ds)
  {
    hide *;
    if tok == NONE {
      TookNone(first, before, p, ds, now, last, found);
    } else {
      TookSome(first, before, p, ds, tok, now, last, found);
      var e := TokenEnd(before, tok, ds);
      Placed(first, before, found, p, ds, tok, e, now, last);
    }
  }

  // Where the token at tok ends.
  ghost function TokenEnd(before: string, tok: int, ds: set<char>): nat
    requires 0 <= tok < |before|
  {
    RunEnd(before, tok, Others(ds))
  }

  // What the progress so far says about the text from p on.
  lemma ProgressAt(first: string, before: string, found: seq<Piece>, p: int, ds: set<char>)
    requires NUL !in ds && p != NONE && Progress(first, before, found, p, ds)
    ensures 0 <= p < |before| == |first| && HasNul(first, 0) && HasNul(first, p) && HasNul(before, p) && before[p..] == first[p..]
    ensures found + Pieces(first, p, ds) == Pieces(first, 0, ds) && Pieces(before, p, ds) == Pieces(first, p, ds)
  {
    hide Pieces, Stands;
    PiecesFrame(first, before, p, ds);
  }

  // A call that finds nothing: the text is unchanged, and nothing was left in it.
  lemma TookNone(first: string, before: string, p: int, ds: set<char>, now: string, last: int, found: seq<Piece>)
    requires NUL !in ds && p != NONE && Progress(first, before, found, p, ds)
    requires HasNul(before, p) && Took(before, p, ds, NONE, now, last)
    ensures last == NONE && HasNul(first, 0) && found == Pieces(first, 0, ds) && Progress(first, now, found, last, ds)
  {
    hide Pieces, RunEnd, Others, HasNul, Stands;
    ProgressAt(first, before, found, p, ds);
    Unfolded(before, p, ds);
    NoRest(first, found, ds);
  }

  // A call that finds a token at the end of the delimiters at p.
  lemma TookWhere(before: string, p: int, ds: set<char>, tok: int, now: string, last: int)
    requires NUL !in ds && 0 <= p && HasNul(before, p) && Took(before, p, ds, tok, now, last) && tok != NONE
    ensures p <= tok == RunEnd(before, p, ds) < TokenEnd(before, tok, ds) < |before| == |now|
    ensures Pieces(before, p, ds)
            == [Piece(tok, TokenEnd(before, tok, ds))] + if last == NONE then [] else (TookLast(before, p, ds, tok, now, last); Pieces(before, last, ds))
    ensures last != NONE ==> last == TokenEnd(before, tok, ds) + 1 && before[TokenEnd(before, tok, ds)] != NUL
  {
    hide Pieces, RunEnd, Others, HasNul;
    Unfolded(before, p, ds);
    if last != NONE { TookLast(before, p, ds, tok, now, last); }
  }

  lemma TookLast(before: string, p: int, ds: set<char>, tok: int, now: string, last: int)
    requires NUL !in ds && 0 <= p && HasNul(before, p) && Took(before, p, ds, tok, now, last) && tok != NONE && last != NONE
    ensures HasNul(before, last) && last >= 0
  {
    hide Pieces, RunEnd, Others, HasNul;
    SkipStops(before, p, ds);
    SkipStops(before, tok, Others(ds));
    HasNulAfter(before, last - 1);
  }

  // The pieces ahead of p, before and after a call that finds a token.
  lemma TookSome(first: string, before: string, p: int, ds: set<char>, tok: int, now: string, last: int, found: seq<Piece>)
    requires NUL !in ds && p != NONE && Progress(first, before, found, p, ds)
    requires HasNul(before, p) && Took(before, p, ds, tok, now, last) && tok != NONE
    ensures 0 <= p <= tok < TokenEnd(before, tok, ds) < |before| == |first| == |now| && HasNul(first, 0)
    ensures last == NONE || HasNul(first, last)
    ensures Pieces(first, 0, ds) == found + ([Piece(tok, TokenEnd(before, tok, ds))] + Rest(first, last, ds))
  {
    hide Pieces, RunEnd, Others, HasNul, Stands, Took, Progress, TokenEnd;
    ProgressAt(first, before, found, p, ds);
    TookWhere(before, p, ds, tok, now, last);
    if last != NONE { BehindToken(first, before, p, ds, tok); }
  }

  lemma BehindToken(first: string, before: string, p: int, ds: set<char>, tok: int)
    requires NUL !in ds && 0 <= p <= tok < |before| == |first| && HasNul(before, p) && tok == RunEnd(before, p, ds)
    requires before[p..] == first[p..] && TokenEnd(before, tok, ds) < |before| && before[TokenEnd(before, tok, ds)] != NUL
    ensures var e := TokenEnd(before, tok, ds);
            HasNul(before, e + 1) && HasNul(first, e + 1) && Pieces(first, e + 1, ds) == Pieces(before, e + 1, ds)
  {
    hide RunEnd, Others, Pieces;
    var e := TokenEnd(before, tok, ds);
    SkipStops(before, p, ds);
    SkipStops(before, tok, Others(ds));
    HasNulAfter(before, e);
    SameTail(before, first, p, e + 1);
    PiecesFrame(before, first, e + 1, ds);
  }

  lemma Placed(first: string, before: string, found: seq<Piece>, p: int, ds: set<char>, tok: int, e: nat, now: string, last: int)
    requires NUL !in ds && p != NONE && Progress(first, before, found, p, ds)
    requires HasNul(before, p) && Took(before, p, ds, tok, now, last) && tok != NONE
    requires 0 <= p <= tok < e < |before| && e == TokenEnd(before, tok, ds) && (last == NONE || HasNul(first, last))
    requires HasNul(first, 0) && Pieces(first, 0, ds) == found + ([Piece(tok, e)] + Rest(first, last, ds))
    ensures |found| < |Pieces(first, 0, ds)| && Pieces(first, 0, ds)[|found|] == Piece(tok, e)
    ensures Progress(first, now, found + [Piece(tok, e)], last, ds)
  {
    hide RunEnd, Others, Pieces, Rest, HasNul, Stands;
    StandsOn(first, before, now, found, p, e);
    StandsNew(first, before, now, p, tok, e);
    assert now[e..][1..] == before[e..][1..] == before[e + 1..];
    assert before[e + 1..] == first[e + 1..] by { assert before[e + 1..] == before[p..][e + 1 - p..]; assert first[e + 1..] == first[p..][e + 1 - p..]; }
    assert found + ([Piece(tok, e)] + Rest(first, last, ds)) == (found + [Piece(tok, e)]) + Rest(first, last, ds);
  }

  lemma StandsNew(first: string, before: string, now: string, p: int, tok: int, e: nat)
    requires |now| == |before| == |first| && 0 <= p <= tok < e < |before| && before[p..] == first[p..]
    requires now == before[e := NUL]
    ensures Stands(first, now, Piece(tok, e))
  {
    forall k | tok <= k < e ensures now[k] == first[k] {
      assert before[k] == before[p..][k - p] == first[p..][k - p];
    }
  }

  lemma StandsOn(first: string, before: string, now: string, found: seq<Piece>, p: int, e: int)
    requires |now| == |before| == |first| && 0 <= p <= e < |before|
    requires now == before || now == before[e := NUL]
    requires forall q <- found :: Stands(first, before, q) && q.end < p
    ensures forall q <- found :: Stands(first, now, q) && q.end < e
  {
  }

  // ---------------------------------------------------------------- the boot command line

  // A char pointer: null, the kernel's own name, or a place in the command line.
  datatype Word = Null | ProgramName | At(at: int)

  ghost predicate HasEquals(t: string, p: Piece) { exists k :: p.at <= k < p.end && k < |t| && t[k] == '=' }

  // The tokens with a '=' in them, or those without, in their order.
  ghost function Sorted(t: string, ps: seq<Piece>, equals: bool): (ws: seq<Word>)
    ensures |ws| <= |ps|
  {
    if ps == [] then []
    else
      var p := ps[|ps| - 1];
      Sorted(t, ps[..|ps| - 1], equals) + if HasEquals(t, p) == equals then [At(p.at)] else []
  }

  lemma {:induction false} SortedSplits(t: string, ps: seq<Piece>)
    ensures |Sorted(t, ps, true)| + |Sorted(t, ps, false)| == |ps|
  {
    if ps != [] { SortedSplits(t, ps[..|ps| - 1]); }
  }

  lemma SortedOneMore(t: string, ps: seq<Piece>, p: Piece, equals: bool)
    ensures Sorted(t, ps + [p], equals) == Sorted(t, ps, equals) + if HasEquals(t, p) == equals then [At(p.at)] else []
  {
    assert (ps + [p])[..|ps|] == ps;
  }

  method StrLen(text: array<char>) returns (n: nat)
    requires HasNul(text[..], 0)
    ensures EndsAt(text[..], n)
  {
    n := 0;
    while text[n] != NUL
      invariant n < text.Length && (forall k :: 0 <= k < n ==> text[k] != NUL) && HasNul(text[..], n)
      decreases text.Length - n
    {
      n := n + 1;
    }
  }

  // strchr on a token that ends at its NUL.
  method StrChr(text: array<char>, tok: int, ghost p: Piece, c: char) returns (found: bool)
    requires c != NUL && tok == p.at && p.at < p.end < text.Length && text[p.end] == NUL
    requires forall k :: p.at <= k < p.end ==> text[k] != NUL
    ensures found <==> exists k :: p.at <= k < p.end && text[k] == c
  {
    var i := tok;
    while text[i] != c
      invariant p.at <= i <= p.end && forall k :: p.at <= k < i ==> text[k] != c
      decreases p.end - i
    {
      if text[i] == NUL { return false; }
      i := i + 1;
    }
    return true;
  }

  // One more call, seen from the text as it was at first.
  method NextToken(tk: Tokenizer, s: int, delim: string, ghost first: string, ghost found: seq<Piece>) returns (tok: int)
    requires Delimiters(delim) && Progress(first, tk.text[..], found, if s != NONE then s else tk.last, DelimSet(delim))
    modifies tk, tk.text
    ensures HasNul(first, 0)
    ensures Advanced(first, tk.text[..], found, tok, tk.last, DelimSet(delim))
  {
    hide Pieces, Rest, Took, DelimSet, Delimiters;
    ghost var ds, before, p := DelimSet(delim), tk.text[..], if s != NONE then s else tk.last;
    if p != NONE {
      PiecesFrame(first, before, p, ds);
    } else {
      NoRest(first, found, ds);
    }
    tok := tk.Strtok(s, delim);
    if p != NONE { OneMore(first, before, found, p, ds, tok, tk.text[..], tk.last); }
  }

  lemma NoRest(first: string, found: seq<Piece>, ds: set<char>)
    requires NUL !in ds
    ensures found + Rest(first, NONE, ds) == found
  {
  }

  // After a call: nothing was left, or the next of the tokens has been found.
  ghost predicate Advanced(first: string, now: string, found: seq<Piece>, tok: int, last: int, ds: set<char>)
    requires NUL !in ds && HasNul(first, 0)
  {
    var all := Pieces(first, 0, ds);
    if tok == NONE then found == all && Progress(first, now, found, last, ds)
    else |found| < |all| && all[|found|].at == tok && Progress(first, now, found + [all[|found|]], last, ds)
  }

  lemma Started(first: string, z: nat, ds: set<char>)
    requires EndsAt(first, z) && NUL !in ds
    ensures Progress(first, first, [], 0, ds)
  {
    hide Pieces;
    UpTo(first, z, 0);
    assert [] + Pieces(first, 0, ds) == Pieces(first, 0, ds);
  }

  // A token found is one of the text's, and stands there.
  lemma FoundStands(first: string, z: nat, now: string, found: seq<Piece>, tok: int, last: int, ds: set<char>)
    requires EndsAt(first, z) && NUL !in ds && HasNul(first, 0) && tok != NONE && Advanced(first, now, found, tok, last, ds)
    ensures |found| < |Pieces(first, 0, ds)|
    ensures var p := Pieces(first, 0, ds)[|found|];
            tok == p.at < p.end < |now| && now[p.end] == NUL
            && (forall k :: p.at <= k < p.end ==> now[k] != NUL && now[k] == first[k])
    ensures |found| < z && |now| == |first|
  {
    hide Pieces, RunEnd, Others, Rest;
    PiecesAreRuns(first, z, 0, ds);
    var all := Pieces(first, 0, ds);
    var p := all[|found|];
    assert p in found + [p] && Stands(first, now, p);
    assert p in all && MaximalRun(first, z, ds, p);
  }

  lemma AllStand(first: string, now: string, found: seq<Piece>, last: int, ds: set<char>)
    requires NUL !in ds && Progress(first, now, found, last, ds)
    ensures |now| == |first| && forall p <- found :: Stands(first, now, p)
  {
    hide Pieces, Rest, Stands;
  }

  lemma EqualsKept(first: string, now: string, p: Piece)
    requires p.at < p.end <= |now| <= |first| && forall k :: p.at <= k < p.end ==> now[k] == first[k]
    ensures HasEquals(first, p) <==> exists k :: p.at <= k < p.end && now[k] == '='
  {
  }

  lemma NoneSorted(t: string)
    ensures Sorted(t, [], true) == [] && Sorted(t, [], false) == []
  {
  }

  lemma FoundNext(first: string, now: string, found: seq<Piece>, tok: int, last: int, ds: set<char>)
    requires NUL !in ds && HasNul(first, 0) && tok != NONE && Advanced(first, now, found, tok, last, ds)
    ensures |found| < |Pieces(first, 0, ds)| && Progress(first, now, found + [Pieces(first, 0, ds)[|found|]], last, ds)
  {
    hide Pieces, Progress, HasNul;
  }

  lemma AllFound(first: string, now: string, found: seq<Piece>, last: int, ds: set<char>)
    requires NUL !in ds && HasNul(first, 0) && Advanced(first, now, found, NONE, last, ds)
    ensures found == Pieces(first, 0, ds) && |now| == |first| && forall p <- found :: Stands(first, now, p)
  {
    hide Pieces, Progress, HasNul, Stands;
    AllStand(first, now, found, last, ds);
  }

  // The loop over the tokens: those with a '=' go to tvar, the others to targ.
  method SortTokens(tk: Tokenizer, delim: string, targ: array<Word>, tvar: array<Word>, cllen: nat) returns (narg: nat, nvar: nat)
    requires Delimiters(delim) && EndsAt(tk.text[..], cllen)
    requires targ.Length == 1 + cllen && tvar.Length == cllen && targ != tvar
    modifies tk, tk.text, targ, tvar
    ensures HasNul(old(tk.text[..]), 0)
    ensures var first := old(tk.text[..]); var all := Pieces(first, 0, DelimSet(delim));
            narg <= cllen && nvar <= cllen
            && targ[..narg] == Sorted(first, all, false) && tvar[..nvar] == Sorted(first, all, true)
            && |tk.text[..]| == |first| && forall p <- all :: Stands(first, tk.text[..], p)
  {
    hide Pieces, Delimiters, DelimSet, Progress, Advanced, Stands, EndsAt, HasNul, Sorted;
    ghost var first, ds, found: seq<Piece> := tk.text[..], DelimSet(delim), [];
    narg, nvar := 0, 0;
    Started(first, cllen, ds);
    var tok := NextToken(tk, 0, delim, first, found);
    NoneSorted(first);
    while tok != NONE
      invariant HasNul(first, 0) && Advanced(first, tk.text[..], found, tok, tk.last, ds)
      invariant narg + nvar == |found| <= cllen
      invariant targ[..narg] == Sorted(first, found, false) && tvar[..nvar] == Sorted(first, found, true)
      decreases |Pieces(first, 0, ds)| - |found|
    {
      FoundStands(first, cllen, tk.text[..], found, tok, tk.last, ds);
      ghost var p := Pieces(first, 0, ds)[|found|];
      assert HasEquals(first, p) <==> exists k :: p.at <= k < p.end && tk.text[k] == '=' by { EqualsKept(first, tk.text[..], p); }
      var equals := StrChr(tk.text, tok, p, '=');
      SortedOneMore(first, found, p, true);
      SortedOneMore(first, found, p, false);
      if equals {
        tvar[nvar], nvar := At(tok), nvar + 1;
      } else {
        targ[narg], narg := At(tok), narg + 1;
      }
      FoundNext(first, tk.text[..], found, tok, tk.last, ds);
      found := found + [p];
      tok := NextToken(tk, NONE, delim, first, found);
    }
    AllFound(first, tk.text[..], found, tk.last, ds);
  }

  const BLANKS: string := " \U{0C}\n\r\t\U{0B}\0"

  ghost function BlankSet(): set<char> { {' ', '\U{0C}', '\n', '\r', '\t', '\U{0B}'} }

  lemma BlanksDelimit()
    ensures Delimiters(BLANKS) && DelimSet(BLANKS) == BlankSet()
  {
    forall c | c in BlankSet() ensures c in DelimSet(BLANKS) {
      assert BLANKS[0] == ' ' && BLANKS[1] == '\U{0C}' && BLANKS[2] == '\n' && BLANKS[3] == '\r' && BLANKS[4] == '\t' && BLANKS[5] == '\U{0B}';
    }
  }

  // memcpy of n pointers
  method CopyWords(to: array<Word>, at: nat, from: array<Word>, n: nat)
    requires at + n <= to.Length && n <= from.Length && to != from
    modifies to
    ensures to[..] == old(to[..at]) + from[..n] + old(to[at + n..])
  {
    var i := 0;
    while i < n
      invariant 0 <= i <= n
      invariant to[..] == old(to[..at]) + from[..i] + old(to[at + i..])
    {
      to[at + i] := from[i];
      i := i + 1;
    }
  }

  // The block argv: the arguments, a null pointer, the environment, a null pointer.
  ghost function Block(args: seq<Word>, env: seq<Word>): seq<Word> { args + [Null] + env + [Null] }

  method FillBlock(argv: array<Word>, targ: array<Word>, narg: nat, tvar: array<Word>, nvar: nat)
    requires narg <= targ.Length && nvar <= tvar.Length && argv.Length == narg + nvar + 2
    requires argv != targ && argv != tvar
    modifies argv
    ensures argv[..] == Block(targ[..narg], tvar[..nvar])
  {
    CopyWords(argv, 0, targ, narg);
    argv[narg] := Null;
    assert argv[..narg + 1] == targ[..narg] + [Null];
    CopyWords(argv, narg + 1, tvar, nvar);
    argv[narg + 1 + nvar] := Null;
  }

  // mb_util_cmdline; available says whether the heap has room for the pointers. envp is an offset into argv.
  method Cmdline(hasCmdline: bool, tk: Tokenizer, available: bool) returns (panicked: bool, argc: nat, argv: array<Word>, envp: nat)
    requires hasCmdline ==> HasNul(tk.text[..], 0)
    modifies tk, tk.text
    ensures panicked <==> hasCmdline && !available
    ensures !hasCmdline ==> argc == 1 && argv[..] == Block([ProgramName], [])[..2] && envp == 1 && tk.text[..] == old(tk.text[..])
    ensures hasCmdline && available ==>
              var first := old(tk.text[..]); var all := Pieces(first, 0, BlankSet());
              argv[..] == Block(Sorted(first, all, false), Sorted(first, all, true))
              && argc == |Sorted(first, all, false)| && envp == argc + 1
              && |tk.text[..]| == |first| && forall p <- all :: Stands(first, tk.text[..], p)
  {
    hide DelimSet, Delimiters, Pieces, Sorted, Stands, HasNul, EndsAt, BlankSet;
    if hasCmdline {
      BlanksDelimit();
      var cllen := StrLen(tk.text);
      var targ, tvar := new Word[1 + cllen], new Word[cllen];
      var narg, nvar := SortTokens(tk, BLANKS, targ, tvar, cllen);
      panicked, argc, envp := !available, narg, narg + 1;
      argv := new Word[if available then narg + nvar + 2 else 0];
      if available { FillBlock(argv, targ, narg, tvar, nvar); }
    } else {
      panicked, argc, envp := false, 1, 1;
      argv := new Word[] [ProgramName, Null];
    }
  }

  // What the kernel's main is given: every maximal run of non-blanks in the command line, in order, each in
  // argv or in the environment according to whether it has a '='.
  lemma CmdlineWords(first: string, z: nat)
    requires EndsAt(first, z)
    ensures HasNul(first, 0)
    ensures forall p: Piece :: p in Pieces(first, 0, BlankSet()) <==> MaximalRun(first, z, BlankSet(), p)
    ensures Ascending(Pieces(first, 0, BlankSet()))
    ensures forall equals :: WordsAscend(Sorted(first, Pieces(first, 0, BlankSet()), equals))
    ensures forall equals, w :: w in Sorted(first, Pieces(first, 0, BlankSet()), equals)
              <==> exists p: Piece :: w == At(p.at) && MaximalRun(first, z, BlankSet(), p) && HasEquals(first, p) == equals
    ensures |Sorted(first, Pieces(first, 0, BlankSet()), false)| + |Sorted(first, Pieces(first, 0, BlankSet()), true)|
            == |Pieces(first, 0, BlankSet())|
  {
    hide Pieces, Sorted, MaximalRun, HasEquals, Ascending, WordsAscend;
    PiecesAreRuns(first, z, 0, BlankSet());
    var all := Pieces(first, 0, BlankSet());
    SortedSplits(first, all);
    forall equals, w ensures w in Sorted(first, all, equals) <==> exists p: Piece :: p in all && w == At(p.at) && HasEquals(first, p) == equals {
      SortedHolds(first, all, equals, w);
    }
    forall p | p in all ensures p.at < p.end { RunsLong(first, z, BlankSet(), p); }
    forall equals { SortedAscends(first, all, equals); }
  }

  lemma RunsLong(t: string, z: nat, ds: set<char>, p: Piece)
    requires z < |t| && MaximalRun(t, z, ds, p)
    ensures p.at < p.end
  {
  }

  lemma {:induction false} SortedHolds(t: string, ps: seq<Piece>, equals: bool, w: Word)
    ensures w in Sorted(t, ps, equals) <==> exists p :: p in ps && w == At(p.at) && HasEquals(t, p) == equals
  {
    hide HasEquals;
    if ps != [] {
      SortedHolds(t, ps[..|ps| - 1], equals, w);
      assert ps == ps[..|ps| - 1] + [ps[|ps| - 1]];
    }
  }

  ghost predicate WordsAscend(ws: seq<Word>) {
    (forall j :: 0 <= j < |ws| ==> ws[j].At?) && forall j, k :: 0 <= j < k < |ws| ==> ws[j].at < ws[k].at
  }

  // Sorting keeps the order of the tokens.
  lemma {:induction false} SortedAscends(t: string, ps: seq<Piece>, equals: bool)
    requires Ascending(ps) && forall p <- ps :: p.at < p.end
    ensures WordsAscend(Sorted(t, ps, equals))
  {
    if ps != [] {
      var front, p := ps[..|ps| - 1], ps[|ps| - 1];
      SortedAscends(t, front, equals);
      var ws := Sorted(t, front, equals);
      forall w | w in ws ensures w.At? && w.at < p.at { SortedBefore(t, ps, equals, w); }
    }
  }

  lemma SortedBefore(t: string, ps: seq<Piece>, equals: bool, w: Word)
    requires Ascending(ps) && ps != [] && (forall p <- ps :: p.at < p.end) && w in Sorted(t, ps[..|ps| - 1], equals)
    ensures w.At? && w.at < ps[|ps| - 1].at
  {
    hide Sorted, HasEquals;
    SortedHolds(t, ps[..|ps| - 1], equals, w);
    var q :| q in ps[..|ps| - 1] && w == At(q.at) && HasEquals(t, q) == equals;
    var j :| 0 <= j < |ps| - 1 && ps[j] == q;
  }
}
