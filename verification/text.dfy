/** Whitespace normalisation as the ledgers apply it: split on white space, join with single blanks. */
module Text {
  import opened Collections

  /** The characters Python's `str.split` splits on. */
  predicate IsSpace(c: char) {
    || '\U{9}' <= c <= '\U{D}' || '\U{1C}' <= c <= '\U{20}' || c == '\U{85}' || c == '\U{A0}' || c == '\U{1680}'
    || '\U{2000}' <= c <= '\U{200A}' || c == '\U{2028}' || c == '\U{2029}' || c == '\U{202F}' || c == '\U{205F}'
    || c == '\U{3000}'
  }

  predicate IsWord(w: string) {
    w != [] && forall c | c in w :: !IsSpace(c)
  }

  function FirstWord(s: string): (w: string)
    ensures w <= s
    ensures forall c | c in w :: !IsSpace(c)
    ensures |w| < |s| ==> IsSpace(s[|w|])
  {
    if s == [] || IsSpace(s[0]) then [] else [s[0]] + FirstWord(s[1..])
  }

  function Words(s: string): (ws: seq<string>)
    ensures forall w | w in ws :: IsWord(w)
    decreases |s|
  {
    if s == [] then []
    else if IsSpace(s[0]) then Words(s[1..])
    else [FirstWord(s)] + Words(s[|FirstWord(s)|..])
  }

  function Join(ws: seq<string>): string {
    if ws == [] then [] else if |ws| == 1 then ws[0] else ws[0] + [' '] + Join(ws[1..])
  }

  /** `" ".join(s.split())`. */
  function Clean(s: string): string {
    Join(Words(s))
  }

  lemma {:induction false} FirstWordOf(w: string, rest: string)
    requires IsWord(w) && (rest == [] || IsSpace(rest[0]))
    ensures FirstWord(w + rest) == w
  {
    var s := w + rest;
    assert s[0] == w[0] && s[1..] == w[1..] + rest;
    if |w| == 1 {
      assert s[1..] == rest;
      assert FirstWord(rest) == [];
    } else {
      FirstWordOf(w[1..], rest);
    }
  }

  lemma {:induction false} WordsOfJoin(ws: seq<string>)
    requires forall w | w in ws :: IsWord(w)
    ensures Words(Join(ws)) == ws
  {
    if ws == [] {
    } else {
      var w, tail := ws[0], ws[1..];
      var rest := if tail == [] then [] else [' '] + Join(tail);
      assert Join(ws) == w + rest;
      FirstWordOf(w, rest);
      assert (w + rest)[|w|..] == rest && (w + rest)[0] == w[0];
      assert Words(w + rest) == [w] + Words(rest);
      WordsOfJoin(tail);
      if tail != [] {
        assert rest[1..] == Join(tail);
      }
    }
  }

  lemma WordIsClean(w: string)
    requires IsWord(w)
    ensures Clean(w) == w
  {
    assert Join([w]) == w;
    WordsOfJoin([w]);
  }

  /** Cleaning twice is cleaning once, so a stored value survives being read back. */
  lemma CleanIdempotent(s: string)
    ensures Clean(Clean(s)) == Clean(s)
  {
    WordsOfJoin(Words(s));
  }

  /** Cleaning changes white space only: the words and their order stay, and a word is left alone. */
  lemma CleanKeepsWords(s: string)
    ensures Words(Clean(s)) == Words(s)
    ensures IsWord(s) ==> Words(s) == [s]
  {
    WordsOfJoin(Words(s));
    if IsWord(s) {
      assert Join([s]) == s;
      WordsOfJoin([s]);
    }
  }

  lemma {:induction false} FirstWordAcross(a: string, c: char, b: string)
    requires IsSpace(c)
    ensures FirstWord(a + [c] + b) == FirstWord(a)
  {
    if a != [] && !IsSpace(a[0]) {
      assert (a + [c] + b)[1..] == a[1..] + [c] + b;
      FirstWordAcross(a[1..], c, b);
    }
  }

  /** White space separates the words before it from those after it. */
  lemma {:induction false} WordsAcross(a: string, c: char, b: string)
    requires IsSpace(c)
    ensures Words(a + [c] + b) == Words(a) + Words(b)
    decreases |a|
  {
    hide IsSpace, Words, FirstWord;
    var s := a + [c] + b;
    if a == [] {
      WordsUnfold(s);
      WordsUnfold(a);
      assert s[1..] == b;
    } else {
      WordsUnfold(s);
      WordsUnfold(a);
      if IsSpace(a[0]) {
        assert s[1..] == a[1..] + [c] + b;
        WordsAcross(a[1..], c, b);
      } else {
        var n := |FirstWord(a)|;
        FirstWordAcross(a, c, b);
        assert s[n..] == a[n..] + [c] + b;
        WordsAcross(a[n..], c, b);
        ConcatAssociative([FirstWord(a)], Words(a[n..]), Words(b));
      }
    }
  }

  lemma WordsUnfold(s: string)
    ensures s == [] ==> Words(s) == []
    ensures s != [] && IsSpace(s[0]) ==> Words(s) == Words(s[1..])
    ensures s != [] && !IsSpace(s[0]) ==>
      0 < |FirstWord(s)| <= |s| && Words(s) == [FirstWord(s)] + Words(s[|FirstWord(s)|..])
  {
  }

  function DropLeading(s: string): string {
    if s != [] && IsSpace(s[0]) then DropLeading(s[1..]) else s
  }

  function DropTrailing(s: string): string {
    if s != [] && IsSpace(s[|s| - 1]) then DropTrailing(s[..|s| - 1]) else s
  }

  /** `s.strip()`. */
  function Strip(s: string): string {
    DropTrailing(DropLeading(s))
  }

  lemma {:induction false} TrailingKeepsHead(s: string)
    requires s == [] || !IsSpace(s[0])
    ensures DropTrailing(s) == [] <==> s == []
    ensures s != [] ==> DropTrailing(s)[0] == s[0]
    ensures DropTrailing(DropTrailing(s)) == DropTrailing(s)
  {
    if s != [] && IsSpace(s[|s| - 1]) {
      TrailingKeepsHead(s[..|s| - 1]);
    }
  }

  lemma {:induction false} LeadingHead(s: string)
    ensures DropLeading(s) == [] || !IsSpace(DropLeading(s)[0])
  {
    if s != [] && IsSpace(s[0]) {
      LeadingHead(s[1..]);
    }
  }

  lemma StripIdempotent(s: string)
    ensures Strip(Strip(s)) == Strip(s)
  {
    LeadingHead(s);
    TrailingKeepsHead(DropLeading(s));
  }

  predicate AllSpace(s: string) {
    forall c | c in s :: IsSpace(c)
  }

  lemma {:induction false} LeadingIs(s: string) returns (k: nat)
    ensures k <= |s| && DropLeading(s) == s[k..] && AllSpace(s[..k])
  {
    hide IsSpace;
    if s != [] && IsSpace(s[0]) {
      var n := LeadingIs(s[1..]);
      k := n + 1;
      assert s[..k] == [s[0]] + s[1..][..n];
    } else {
      k := 0;
    }
  }

  lemma {:induction false} TrailingIs(s: string) returns (k: nat)
    ensures k <= |s| && DropTrailing(s) == s[..k] && AllSpace(s[k..])
    ensures k > 0 ==> !IsSpace(s[k - 1])
  {
    hide IsSpace;
    if s != [] && IsSpace(s[|s| - 1]) {
      var front := s[..|s| - 1];
      k := TrailingIs(front);
      assert s[k..] == front[k..] + [s[|s| - 1]];
    } else {
      k := |s|;
    }
  }

  /** What stripping leaves: the text from its first to its last character that is no white space. */
  lemma StripIs(s: string) returns (i: nat, j: nat)
    ensures i <= j <= |s| && Strip(s) == s[i..j] && AllSpace(s[..i]) && AllSpace(s[j..])
    ensures i < j ==> !IsSpace(s[i]) && !IsSpace(s[j - 1])
    ensures Strip(s) == [] <==> AllSpace(s)
  {
    hide IsSpace, DropLeading, DropTrailing;
    i := LeadingIs(s);
    LeadingHead(s);
    TrailingKeepsHead(s[i..]);
    var n := TrailingIs(s[i..]);
    j := i + n;
    assert s[i..j] == s[i..][..n] && s[j..] == s[i..][n..];
    assert s == s[..i] + s[i..j] + s[j..];
    assert i < j ==> s[i] == s[i..j][0] && s[j - 1] == s[i..][n - 1];
    assert i < j ==> s[i] in s;
  }

  lemma BlankIff(s: string)
    ensures Strip(s) == [] <==> AllSpace(s)
  {
    var i, j := StripIs(s);
  }

  /** A text that neither begins nor ends with white space is left alone. */
  lemma StripSolid(s: string)
    requires s != [] && !IsSpace(s[0]) && !IsSpace(s[|s| - 1])
    ensures Strip(s) == s
  {
  }

  datatype TextError = Blank | TooLong | TooFew | TooMany

  function CleanText(s: string, maxChars: nat): (r: Result<string, TextError>)
    ensures r.Ok? ==> r.value == Clean(r.value) && 0 < |r.value| <= maxChars
    ensures Clean(s) == s && 0 < |s| <= maxChars ==> r == Ok(s)
  {
    CleanIdempotent(s);
    var c := Clean(s);
    if c == [] then Err(Blank) else if |c| > maxChars then Err(TooLong) else Ok(c)
  }

  predicate IsText(s: string, maxChars: nat) {
    Clean(s) == s && 0 < |s| <= maxChars
  }

  predicate AreTexts(ss: seq<string>, minItems: nat, maxItems: nat, maxChars: nat) {
    NoDup(ss) && minItems <= |ss| <= maxItems && forall s | s in ss :: IsText(s, maxChars)
  }

  /** Clean every entry and drop repeats, keeping the first; the first bad entry is the error. */
  function CleanEach(ss: seq<string>, maxChars: nat): (r: Result<seq<string>, TextError>)
    ensures r.Ok? ==> NoDup(r.value) && forall s | s in r.value :: IsText(s, maxChars)
  {
    if ss == [] then Ok([])
    else
      var front, last := ss[..|ss| - 1], ss[|ss| - 1];
      var before := CleanEach(front, maxChars);
      var entry := CleanText(last, maxChars);
      if before.Err? then before
      else if entry.Err? then Err(entry.error)
      else if entry.value in before.value then before
      else Ok(before.value + [entry.value])
  }

  /** All entries must be texts; then the cleaned ones are listed, each once. */
  lemma {:induction false} CleanEachIs(ss: seq<string>, maxChars: nat)
    ensures CleanEach(ss, maxChars).Ok? <==> forall s | s in ss :: CleanText(s, maxChars).Ok?
    ensures CleanEach(ss, maxChars).Ok? ==>
      forall t :: t in CleanEach(ss, maxChars).value <==> exists s :: s in ss && CleanText(s, maxChars) == Ok(t)
  {
    if ss != [] {
      hide CleanText;
      var front, last := ss[..|ss| - 1], ss[|ss| - 1];
      assert ss == front + [last];
      CleanEachIs(front, maxChars);
    }
  }

  lemma {:induction false} CleanEachKeepsClean(ss: seq<string>, maxChars: nat)
    requires NoDup(ss) && forall s | s in ss :: IsText(s, maxChars)
    ensures CleanEach(ss, maxChars) == Ok(ss)
  {
    if ss == [] {
    } else {
      var front, last := ss[..|ss| - 1], ss[|ss| - 1];
      assert ss == front + [last];
      assert last in ss && last !in front;
      CleanEachKeepsClean(front, maxChars);
    }
  }

  function CleanTexts(ss: seq<string>, minItems: nat, maxItems: nat, maxChars: nat)
    : (r: Result<seq<string>, TextError>)
    ensures r.Ok? ==> AreTexts(r.value, minItems, maxItems, maxChars)
    ensures AreTexts(ss, minItems, maxItems, maxChars) ==> r == Ok(ss)
  {
    assert AreTexts(ss, minItems, maxItems, maxChars) ==> CleanEach(ss, maxChars) == Ok(ss) by {
      if AreTexts(ss, minItems, maxItems, maxChars) {
        CleanEachKeepsClean(ss, maxChars);
      }
    }
    var entries := CleanEach(ss, maxChars);
    if entries.Err? then entries
    else if |entries.value| < minItems then Err(TooFew)
    else if |entries.value| > maxItems then Err(TooMany)
    else entries
  }
}
