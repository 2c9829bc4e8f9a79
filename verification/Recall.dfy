/** The recall query: keywords as quoted strings joined by OR. */
module Recall {
  import opened Base
  import opened Text

  /** The leading run of characters that are not white space. */
  function Word(s: string): (w: string)
    ensures w <= s
    ensures |w| == |s| || IsSpace(s[|w|])
    ensures forall i :: 0 <= i < |w| ==> !IsSpace(w[i])
  {
    if s == "" || IsSpace(s[0]) then "" else [s[0]] + Word(s[1..])
  }

  predicate IsWord(w: string) {
    w != "" && forall i :: 0 <= i < |w| ==> !IsSpace(w[i])
  }

  /** The words of a text. */
  function Fields(s: string): (words: seq<string>)
    ensures forall w :: w in words ==> IsWord(w)
    decreases |s|
  {
    if s == "" then []
    else if IsSpace(s[0]) then Fields(s[1..])
    else
      var w := Word(s);
      [w] + Fields(s[|w|..])
  }

  predicate Blank(s: string) {
    forall i :: 0 <= i < |s| ==> IsSpace(s[i])
  }

  /** Words, each followed by its gap; only the last gap may be empty. */
  predicate Gaps(ws: seq<string>, gaps: seq<string>) {
    && |ws| == |gaps|
    && forall i :: 0 <= i < |ws| ==> IsWord(ws[i]) && Blank(gaps[i]) && (i < |ws| - 1 ==> gaps[i] != "")
  }

  function Spread(ws: seq<string>, gaps: seq<string>): string
    requires |ws| == |gaps|
  {
    if ws == [] then "" else ws[0] + gaps[0] + Spread(ws[1..], gaps[1..])
  }

  lemma {:induction false} FieldsSkipsBlank(lead: string, s: string)
    requires Blank(lead)
    ensures Fields(lead + s) == Fields(s)
  {
    if lead == "" {
      assert lead + s == s;
    } else {
      FieldsSkipsBlank(lead[1..], s);
      assert (lead + s)[1..] == lead[1..] + s;
    }
  }

  lemma {:induction false} WordOf(w: string, s: string)
    requires (forall i :: 0 <= i < |w| ==> !IsSpace(w[i])) && (s == "" || IsSpace(s[0]))
    ensures Word(w + s) == w
  {
    if w == "" {
      assert w + s == s;
    } else {
      WordOf(w[1..], s);
      assert (w + s)[1..] == w[1..] + s;
    }
  }

  /** However the words are spaced, they are what is found, in order. */
  lemma {:induction false} FieldsOfSpread(lead: string, ws: seq<string>, gaps: seq<string>)
    requires Blank(lead) && Gaps(ws, gaps)
    ensures Fields(lead + Spread(ws, gaps)) == ws
    decreases |ws|
  {
    FieldsSkipsBlank(lead, Spread(ws, gaps));
    if ws != [] {
      var rest := gaps[0] + Spread(ws[1..], gaps[1..]);
      SpreadRest(ws, gaps, rest);
      FieldsFirst(ws[0], rest);
      FieldsOfSpread(gaps[0], ws[1..], gaps[1..]);
      assert ws == [ws[0]] + ws[1..];
    }
  }

  lemma SpreadRest(ws: seq<string>, gaps: seq<string>, rest: string)
    requires Gaps(ws, gaps) && ws != [] && rest == gaps[0] + Spread(ws[1..], gaps[1..])
    ensures Gaps(ws[1..], gaps[1..]) && (rest == "" || IsSpace(rest[0]))
    ensures Spread(ws, gaps) == ws[0] + rest
  {
    if |ws| == 1 {
      assert ws[1..] == [] && rest == gaps[0];
    } else {
      assert gaps[0] != "" && rest[0] == gaps[0][0];
    }
  }

  lemma FieldsFirst(w: string, rest: string)
    requires IsWord(w) && (rest == "" || IsSpace(rest[0]))
    ensures Fields(w + rest) == [w] + Fields(rest)
  {
    WordOf(w, rest);
    assert (w + rest)[|w|..] == rest && (w + rest)[0] == w[0];
  }

  predicate IsPunctuation(c: char) {
    c in ".,;:?!'\"()[]{}<>"
  }

  function CharBytes(c: char): nat {
    if c < '\U{80}' then 1 else if c < '\U{800}' then 2 else if c < '\U{10000}' then 3 else 4
  }

  /** The length of a string's UTF-8 form. */
  function ByteLength(s: string): nat {
    if s == "" then 0 else CharBytes(s[0]) + ByteLength(s[1..])
  }

  /** The trimmed words long enough to search for, in order. */
  function Candidates(words: seq<string>, minLen: int): seq<string> {
    if words == [] then []
    else
      var clean := Trim(words[|words| - 1], IsPunctuation);
      Candidates(words[..|words| - 1], minLen) + if ByteLength(clean) < minLen then [] else [clean]
  }

  const MAX_TERMS := 8

  function AtMost(n: nat, ws: seq<string>): seq<string> {
    if |ws| <= n then ws else ws[..n]
  }

  /** What is searched for. */
  function Terms(text: string, minLen: int): seq<string> {
    AtMost(MAX_TERMS, Candidates(Fields(text), minLen))
  }

  // ---- printing ----

  function Doubled(s: string): string {
    if s == "" then "" else (if s[0] == '"' then "\"\"" else [s[0]]) + Doubled(s[1..])
  }

  function Quote(s: string): string {
    "\"" + Doubled(s) + "\""
  }

  const OR := " OR "

  function Join(terms: seq<string>): string {
    if terms == [] then ""
    else if |terms| == 1 then terms[0]
    else terms[0] + OR + Join(terms[1..])
  }

  function Quoted(ws: seq<string>): seq<string> {
    seq(|ws|, i requires 0 <= i < |ws| => Quote(ws[i]))
  }

  // ---- reading ----

  datatype Piece = Piece(word: string, rest: string)

  /** The rest of a quoted string; a doubled quote stands for one. */
  function ReadString(s: string): Option<Piece> {
    if s == "" then None
    else if s[0] == '"' && !(|s| > 1 && s[1] == '"') then Some(Piece("", s[1..]))
    else
      match ReadString(if s[0] == '"' then s[2..] else s[1..])
      case None => None
      case Some(p) => Some(Piece([s[0]] + p.word, p.rest))
  }

  lemma ReadStringShorter(s: string)
    ensures ReadString(s).Some? ==> |ReadString(s).value.rest| < |s|
  {
  }

  /** Quoted strings separated only by OR. */
  function ReadTerms(s: string): Option<seq<string>>
    decreases |s|
  {
    if s == "" || s[0] != '"' then None
    else
      ReadStringShorter(s[1..]);
      match ReadString(s[1..])
      case None => None
      case Some(p) => AfterTerm(p.word, p.rest)
  }

  function AfterTerm(w: string, rest: string): Option<seq<string>>
    decreases |rest|
  {
    if rest == "" then Some([w])
    else if !(OR <= rest) then None
    else
      match ReadTerms(rest[|OR|..])
      case None => None
      case Some(ws) => Some([w] + ws)
  }

  function ReadQuery(s: string): Option<seq<string>> {
    if s == "" then Some([]) else ReadTerms(s)
  }

  lemma ReadDoubled(tail: string)
    requires ReadString(tail).Some?
    ensures ReadString("\"\"" + tail) == Some(Piece("\"" + ReadString(tail).value.word, ReadString(tail).value.rest))
  {
    var s := "\"\"" + tail;
    assert s[0] == '"' && s[1] == '"' && s[2..] == tail;
  }

  lemma ReadPlain(c: char, tail: string)
    requires c != '"' && ReadString(tail).Some?
    ensures ReadString([c] + tail) == Some(Piece([c] + ReadString(tail).value.word, ReadString(tail).value.rest))
  {
    assert ([c] + tail)[1..] == tail;
  }

  /** The text after an opening quote. */
  function Closing(w: string, rest: string): string {
    if w == "" then "\"" + rest
    else (if w[0] == '"' then "\"\"" else [w[0]]) + Closing(w[1..], rest)
  }

  lemma {:induction false} ClosingIs(w: string, rest: string)
    ensures Doubled(w) + "\"" + rest == Closing(w, rest)
  {
    if w != "" {
      ClosingIs(w[1..], rest);
      var first := if w[0] == '"' then "\"\"" else [w[0]];
      assert first + Doubled(w[1..]) + "\"" + rest == first + (Doubled(w[1..]) + "\"" + rest);
    }
  }

  lemma {:induction false} StringRoundTrip(w: string, rest: string)
    requires rest == "" || rest[0] != '"'
    ensures ReadString(Closing(w, rest)) == Some(Piece(w, rest))
  {
    if w != "" {
      StringRoundTrip(w[1..], rest);
      if w[0] == '"' {
        ReadDoubled(Closing(w[1..], rest));
      } else {
        ReadPlain(w[0], Closing(w[1..], rest));
      }
      assert [w[0]] + w[1..] == w;
    }
  }

  lemma ReadFirst(w: string, rest: string)
    requires rest == "" || rest[0] != '"'
    ensures ReadTerms(Quote(w) + rest) == AfterTerm(w, rest)
  {
    var s := Quote(w) + rest;
    assert s[0] == '"' && s[1..] == Doubled(w) + "\"" + rest;
    ClosingIs(w, rest);
    StringRoundTrip(w, rest);
  }

  /** Quoting loses nothing, whatever the words contain. */
  lemma {:induction false} JoinRoundTrip(ws: seq<string>)
    ensures ReadQuery(Join(Quoted(ws))) == Some(ws)
  {
    if ws != [] {
      var first, others := ws[0], ws[1..];
      assert Quoted(ws)[1..] == Quoted(others);
      JoinStartsQuoted(ws);
      if others == [] {
        ReadFirst(first, "");
        assert Quote(first) + "" == Quote(first);
        assert ws == [first];
      } else {
        var rest := OR + Join(Quoted(others));
        assert Join(Quoted(ws)) == Quote(first) + rest;
        JoinRoundTrip(others);
        JoinStartsQuoted(others);
        ReadFirst(first, rest);
        assert rest[|OR|..] == Join(Quoted(others));
        assert ws == [first] + others;
      }
    }
  }

  lemma JoinStartsQuoted(ws: seq<string>)
    requires ws != []
    ensures Join(Quoted(ws)) != ""
  {
    assert Quoted(ws)[0] == Quote(ws[0]);
  }

  /** keywords: the query recovers exactly the words searched for, and two texts
      give one query exactly when they give the same words. */
  function KeywordsOf(text: string, minLen: int): string {
    Join(Quoted(Terms(text, minLen)))
  }

  lemma {:induction false} KeywordsRoundTrip(text: string, minLen: int)
    ensures ReadQuery(KeywordsOf(text, minLen)) == Some(Terms(text, minLen))
  {
    JoinRoundTrip(Terms(text, minLen));
  }

  lemma {:induction false} KeywordsInjective(text: string, other: string, minLen: int)
    ensures KeywordsOf(text, minLen) == KeywordsOf(other, minLen) <==> Terms(text, minLen) == Terms(other, minLen)
  {
    KeywordsRoundTrip(text, minLen);
    KeywordsRoundTrip(other, minLen);
  }

  /** Every word searched for is a word of the text without the punctuation at
      its ends, long enough, and holds no white space. */
  lemma {:induction false} CandidatesFromWords(words: seq<string>, minLen: int, c: string)
    ensures c in Candidates(words, minLen) <==>
      ByteLength(c) >= minLen && exists w :: w in words && c == Trim(w, IsPunctuation)
  {
    if words != [] {
      var front, last := words[..|words| - 1], words[|words| - 1];
      CandidatesFromWords(front, minLen, c);
      assert words == front + [last];
      assert c in Candidates(words, minLen) <==>
        c in Candidates(front, minLen) || (c == Trim(last, IsPunctuation) && ByteLength(c) >= minLen);
    }
  }

  // ---- the loop ----

  lemma {:induction false} CandidatesGrow(words: seq<string>, minLen: int, i: nat)
    requires i <= |words|
    ensures Candidates(words[..i], minLen) <= Candidates(words, minLen)
    decreases |words| - i
  {
    if i == |words| {
      assert words[..i] == words;
    } else {
      CandidatesGrow(words, minLen, i + 1);
      assert words[..i + 1][..i] == words[..i];
    }
  }

  lemma CandidatesStep(words: seq<string>, minLen: int, i: nat)
    requires i < |words|
    ensures var clean := Trim(words[i], IsPunctuation);
      Candidates(words[..i + 1], minLen)
        == Candidates(words[..i], minLen) + if ByteLength(clean) < minLen then [] else [clean]
  {
    assert words[..i + 1][..i] == words[..i];
  }

  lemma QuotedSnoc(ws: seq<string>, w: string)
    ensures Quoted(ws + [w]) == Quoted(ws) + [Quote(w)]
  {
  }

  /** The candidates of a long enough prefix are all that count. */
  lemma PrefixDecides(words: seq<string>, minLen: int, i: nat)
    requires i <= |words|
    requires i == |words| || |Candidates(words[..i], minLen)| >= MAX_TERMS
    requires |Candidates(words[..i], minLen)| <= MAX_TERMS
    ensures AtMost(MAX_TERMS, Candidates(words, minLen)) == Candidates(words[..i], minLen)
  {
    CandidatesGrow(words, minLen, i);
    if i == |words| {
      assert words[..i] == words;
    }
  }

  /** keywords as it runs: stop at the eighth word. */
  method Keywords(text: string, minLen: int) returns (query: string)
    ensures query == KeywordsOf(text, minLen)
  {
    var words := Fields(text);
    var out: seq<string> := [];
    ghost var kept: seq<string> := [];
    var i := 0;
    while i < |words|
      invariant i <= |words| && |kept| <= MAX_TERMS
      invariant kept == Candidates(words[..i], minLen) && out == Quoted(kept)
      invariant i < |words| ==> |kept| < MAX_TERMS
    {
      CandidatesStep(words, minLen, i);
      var clean := Trim(words[i], IsPunctuation);
      i := i + 1;
      if ByteLength(clean) < minLen {
        continue;
      }
      QuotedSnoc(kept, clean);
      kept := kept + [clean];
      out := out + [Quote(clean)];
      if |out| >= MAX_TERMS {
        break;
      }
    }
    PrefixDecides(words, minLen, i);
    if |out| == 0 {
      return "";
    }
    query := Join(out);
  }
}
