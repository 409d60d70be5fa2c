/** The debugger's tokenizer: `split` of libgbc/debug.cpp, together with the
    two `std::string` operations it is built from. */
module Text {

  import opened Wrappers

  /** `txt.find(ch, from)`: the first position at or after `from` that holds
      `ch`, or None for `std::string::npos`. */
  function Find(txt: string, ch: char, from: nat): (r: Option<nat>)
    ensures r.Some? ==> from <= r.value < |txt| && txt[r.value] == ch
    ensures r.Some? ==> forall k :: from <= k < r.value ==> txt[k] != ch
    ensures r.None? ==> forall k :: from <= k < |txt| ==> txt[k] != ch
    decreases |txt| - from
  {
    if from >= |txt| then None
    else if txt[from] == ch then Some(from)
    else Find(txt, ch, from + 1)
  }

  /** `txt.substr(pos, n)`: at most `n` characters from `pos`, cut at the end
      of the string. A `pos` past the end throws in C++ and is excluded here. */
  function Substr(txt: string, pos: nat, n: nat): (r: string)
    requires pos <= |txt|
    ensures |r| <= n && pos + |r| <= |txt| && r == txt[pos..pos + |r|]
    ensures |r| < n ==> pos + |r| == |txt|
  {
    if pos + n <= |txt| then txt[pos..pos + n] else txt[pos..]
  }

  /** The pieces of `txt` between occurrences of `ch`: the text before the
      first `ch`, then the pieces of what follows it. */
  function Tokens(txt: string, ch: char): (r: seq<string>)
    ensures |r| >= 1
    decreases |txt|
  {
    match Find(txt, ch, 0)
    case None => [txt]
    case Some(i) => [txt[..i]] + Tokens(txt[i + 1..], ch)
  }

  /** The pieces glued back together with `ch` between neighbours. */
  function Join(pieces: seq<string>, ch: char): string
  {
    if |pieces| == 0 then ""
    else if |pieces| == 1 then pieces[0]
    else pieces[0] + [ch] + Join(pieces[1..], ch)
  }

  /** `split(txt, ch)` (libgbc/debug.cpp:6-23): push the text between
      separators while `find` succeeds, then the rest of the string. */
  method Split(txt: string, ch: char) returns (strs: seq<string>)
    ensures strs == Tokens(txt, ch)
    ensures |strs| == multiset(txt)[ch] + 1
    ensures forall i :: 0 <= i < |strs| ==> ch !in strs[i]
    ensures Join(strs, ch) == txt
  {
    var pos := Find(txt, ch, 0);
    var initialPos := 0;
    strs := [];
    assert txt[0..] == txt;
    while pos.Some?
      invariant initialPos <= |txt|
      invariant pos == Find(txt, ch, initialPos)
      invariant strs + Tokens(txt[initialPos..], ch) == Tokens(txt, ch)
      decreases |txt| - initialPos
    {
      var p := pos.value;
      SplitStep(txt, ch, strs, initialPos, p);
      var piece := Substr(txt, initialPos, p - initialPos);
      assert piece == txt[initialPos..p];
      strs := strs + [piece];
      initialPos := p + 1;
      pos := Find(txt, ch, initialPos);
    }
    // the last piece: substr(initialPos, min(npos, size) - initialPos + 1)
    var last := Substr(txt, initialPos, |txt| - initialPos + 1);
    assert last == txt[initialPos..];
    SplitLast(txt, ch, strs, initialPos);
    strs := strs + [last];
    TokensShape(txt, ch);
    JoinTokens(txt, ch);
  }

  /** The loop invariant of Split survives one round. */
  lemma SplitStep(txt: string, ch: char, strs: seq<string>, from: nat, p: nat)
    requires from <= |txt| && Find(txt, ch, from) == Some(p)
    requires strs + Tokens(txt[from..], ch) == Tokens(txt, ch)
    ensures p + 1 <= |txt|
    ensures (strs + [txt[from..p]]) + Tokens(txt[p + 1..], ch) == Tokens(txt, ch)
  {
    TokensStep(txt, ch, from, p);
    assert (strs + [txt[from..p]]) + Tokens(txt[p + 1..], ch)
        == strs + ([txt[from..p]] + Tokens(txt[p + 1..], ch));
  }

  /** When the loop stops, the rest is the last piece. */
  lemma SplitLast(txt: string, ch: char, strs: seq<string>, from: nat)
    requires from <= |txt| && Find(txt, ch, from).None?
    requires strs + Tokens(txt[from..], ch) == Tokens(txt, ch)
    ensures strs + [txt[from..]] == Tokens(txt, ch)
  {
    TokensLast(txt, ch, from);
  }

  /** One round of the loop: the pieces of the rest are the piece up to the
      next separator and then the pieces after it. */
  lemma TokensStep(txt: string, ch: char, from: nat, p: nat)
    requires from <= |txt| && Find(txt, ch, from) == Some(p)
    ensures Tokens(txt[from..], ch) == [txt[from..p]] + Tokens(txt[p + 1..], ch)
  {
    FindSuffixSome(txt, ch, from);
    SuffixSlices(txt, from, p);
    TokensAt(txt[from..], ch, p - from, txt[from..p], txt[p + 1..]);
  }

  /** The unfolding of Tokens at its first separator, with the two slices
      named. */
  lemma TokensAt(u: string, ch: char, i: nat, before: string, after: string)
    requires Find(u, ch, 0) == Some(i)
    requires i < |u| && before == u[..i] && after == u[i + 1..]
    ensures Tokens(u, ch) == [before] + Tokens(after, ch)
  {
  }

  /** The separator found from `from` is found in the suffix at `from`. */
  lemma FindSuffixSome(txt: string, ch: char, from: nat)
    requires from <= |txt| && Find(txt, ch, from).Some?
    ensures Find(txt[from..], ch, 0) == Some(Find(txt, ch, from).value - from)
  {
    FindSuffix(txt, ch, from);
  }

  lemma SuffixSlices(txt: string, from: nat, p: nat)
    requires from <= p < |txt|
    ensures txt[from..][..p - from] == txt[from..p]
    ensures txt[from..][p - from + 1..] == txt[p + 1..]
  {
  }

  /** After the last separator the rest is one piece. */
  lemma TokensLast(txt: string, ch: char, from: nat)
    requires from <= |txt| && Find(txt, ch, from).None?
    ensures Tokens(txt[from..], ch) == [txt[from..]]
  {
    FindSuffix(txt, ch, from);
  }

  /** Searching from `from` is searching the suffix that starts there. */
  lemma {:induction false} FindSuffix(txt: string, ch: char, from: nat)
    requires from <= |txt|
    ensures Find(txt, ch, from) == match Find(txt[from..], ch, 0)
                                   case None => None
                                   case Some(i) => Some(from + i)
  {
    var r, s := Find(txt, ch, from), Find(txt[from..], ch, 0);
    if r.Some? {
      assert txt[from..][r.value - from] == ch;
      if s.Some? {
        assert txt[from + s.value] == txt[from..][s.value];
        assert !(s.value < r.value - from) && !(r.value - from < s.value);
      }
    }
  }

  /** `split` returns one piece more than there are separators, and no piece
      contains the separator. */
  lemma {:induction false} TokensShape(txt: string, ch: char)
    ensures |Tokens(txt, ch)| == multiset(txt)[ch] + 1
    ensures forall i :: 0 <= i < |Tokens(txt, ch)| ==> ch !in Tokens(txt, ch)[i]
    decreases |txt|
  {
    match Find(txt, ch, 0)
    case None =>
      assert ch !in multiset(txt);
    case Some(i) =>
      TokensShape(txt[i + 1..], ch);
      assert txt == txt[..i] + [ch] + txt[i + 1..];
      assert ch !in multiset(txt[..i]);
      var r := Tokens(txt, ch);
      forall j | 0 <= j < |r| ensures ch !in r[j] {
        if j > 0 { assert r[j] == Tokens(txt[i + 1..], ch)[j - 1]; }
      }
  }

  /** Joining the pieces of `split` gives back its input. */
  lemma {:induction false} JoinTokens(txt: string, ch: char)
    ensures Join(Tokens(txt, ch), ch) == txt
    decreases |txt|
  {
    match Find(txt, ch, 0)
    case None =>
    case Some(i) =>
      JoinTokens(txt[i + 1..], ch);
      var rest := Tokens(txt[i + 1..], ch);
      assert Tokens(txt, ch)[1..] == rest;
      assert txt == txt[..i] + [ch] + txt[i + 1..];
  }

  /** The other direction: splitting a join of separator-free pieces gives
      back the pieces, so `split` loses nothing. */
  lemma {:induction false} TokensJoin(pieces: seq<string>, ch: char)
    requires |pieces| >= 1
    requires forall i :: 0 <= i < |pieces| ==> ch !in pieces[i]
    ensures Tokens(Join(pieces, ch), ch) == pieces
    decreases |pieces|
  {
    var p := pieces[0];
    if |pieces| == 1 {
      assert Find(p, ch, 0) == None;
    } else {
      var rest := pieces[1..];
      assert forall i :: 0 <= i < |rest| ==> ch !in rest[i] by {
        forall i | 0 <= i < |rest| ensures ch !in rest[i] { assert rest[i] == pieces[i + 1]; }
      }
      TokensJoin(rest, ch);
      var s := Join(pieces, ch);
      assert s == p + [ch] + Join(rest, ch);
      assert s[|p|] == ch;
      assert forall k :: 0 <= k < |p| ==> s[k] != ch by {
        forall k | 0 <= k < |p| ensures s[k] != ch { assert s[k] == p[k]; }
      }
      assert Find(s, ch, 0) == Some(|p|) by {
        var f := Find(s, ch, 0);
        assert f.Some?;
        assert !(f.value < |p|) && !(|p| < f.value);
      }
      assert s[..|p|] == p;
      assert s[|p| + 1..] == Join(rest, ch);
    }
  }

  /** `find` stops at the first occurrence. */
  lemma FindFirst(txt: string, ch: char, k: nat)
    requires k < |txt| && txt[k] == ch
    requires forall j :: 0 <= j < k ==> txt[j] != ch
    ensures Find(txt, ch, 0) == Some(k)
  {
    var f := Find(txt, ch, 0);
    assert f.Some?;
    assert !(f.value < k) && !(k < f.value);
  }

  /** An empty line splits into one empty piece. */
  lemma SplitEmpty(ch: char)
    ensures Tokens("", ch) == [""]
  {
  }
}
