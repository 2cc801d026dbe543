/** The whitespace normal form of `normalize_text` in `backend/app/governance/intake.py`: everything
    after the NFKC step.  Characters are code points; `isControl` says which of them Unicode puts in
    a category starting with C. */
module NormalForm {
  /** `str.isspace`, which is what `strip` strips. */
  predicate IsSpace(c: char) {
    || '\t' <= c <= '\r' || '\U{001C}' <= c <= ' ' || c == '\U{0085}' || c == '\U{00A0}' || c == '\U{1680}'
    || '\U{2000}' <= c <= '\U{200A}' || '\U{2028}' <= c <= '\U{2029}' || c == '\U{202F}' || c == '\U{205F}'
         || c == '\U{3000}'
  }

  predicate IsBlank(c: char) { IsSpace(c) && c != '\n' }

  predicate Horizontal(c: char) { c == ' ' || c == '\t' }

  // ----- the steps -----

  /** Drop control characters, but keep newlines and tabs. */
  function Filtered(s: string, isControl: char -> bool): string {
    if s == "" then ""
    else (if s[0] == '\n' || s[0] == '\t' || !isControl(s[0]) then [s[0]] else "") + Filtered(s[1..], isControl)
  }

  function Split(s: string): (lines: seq<string>)
    ensures lines != [] && forall l <- lines :: '\n' !in l
    ensures |lines[0]| <= |s| && s[..|lines[0]|] == lines[0]
    ensures |lines[0]| < |s| ==> s[|lines[0]|] == '\n'
  {
    if s == "" then [""]
    else
      var rest := Split(s[1..]);
      if s[0] == '\n' then [""] + rest else [[s[0]] + rest[0]] + rest[1..]
  }

  function Join(lines: seq<string>): string {
    if lines == [] then "" else if |lines| == 1 then lines[0] else lines[0] + "\n" + Join(lines[1..])
  }

  /** How many leading characters satisfy `p`. */
  function Run(s: string, p: char -> bool): (n: nat)
    ensures n <= |s| && (forall i | 0 <= i < n :: p(s[i])) && (n < |s| ==> !p(s[n]))
  {
    if s == "" || !p(s[0]) then 0 else 1 + Run(s[1..], p)
  }

  /** Each run of spaces and tabs becomes one space. */
  function Collapsed(s: string): string
    decreases |s|
  {
    if s == "" then ""
    else
      var n := Run(s, Horizontal);
      if n > 0 then " " + Collapsed(s[n..]) else [s[0]] + Collapsed(s[1..])
  }

  /** The length of `s` without its trailing whitespace. */
  function Kept(s: string): (n: nat)
    ensures n <= |s| && (forall i | n <= i < |s| :: IsSpace(s[i])) && (n > 0 ==> !IsSpace(s[n - 1]))
  {
    if s == "" || !IsSpace(s[|s| - 1]) then |s| else Kept(s[..|s| - 1])
  }

  function Strip(s: string): string {
    var left := s[Run(s, IsSpace)..];
    left[..Kept(left)]
  }

  function Tidy(line: string): string { Strip(Collapsed(line)) }

  function Tidied(lines: seq<string>): seq<string> {
    seq(|lines|, i requires 0 <= i < |lines| => Tidy(lines[i]))
  }

  predicate Newline(c: char) { c == '\n' }

  /** The leading run of newlines, or the single leading character that is none. */
  function Block(s: string): (n: nat)
    requires s != ""
    ensures 1 <= n <= |s|
  {
    if Run(s, Newline) > 0 then Run(s, Newline) else 1
  }

  function Head(s: string): (h: string)
    requires s != ""
    ensures h != "" && h[0] == s[0] && h[|h| - 1] == s[Block(s) - 1]
  {
    if Run(s, Newline) >= 3 then "\n\n" else s[..Block(s)]
  }

  /** Each run of three or more newlines becomes two. */
  function Squeezed(s: string): string
    decreases |s|
  {
    if s == "" then "" else Head(s) + Squeezed(s[Block(s)..])
  }

  function Normalized(s: string, isControl: char -> bool): string {
    Strip(Squeezed(Join(Tidied(Split(Filtered(s, isControl))))))
  }

  // ----- the normal form -----

  predicate CharsOk(s: string, isControl: char -> bool) {
    forall c <- s :: c != '\t' && (c == '\n' || !isControl(c))
  }

  /** Two neighbours: no double space, and no blank beside a newline. */
  predicate PairOk(a: char, b: char) {
    !(a == ' ' && b == ' ') && !(a == '\n' && IsBlank(b)) && !(IsBlank(a) && b == '\n')
  }

  predicate PairsOk(s: string) {
    forall i | 0 <= i < |s| - 1 :: PairOk(s[i], s[i + 1])
  }

  predicate EdgesOk(s: string) {
    s != "" ==> !IsBlank(s[0]) && !IsBlank(s[|s| - 1])
  }

  predicate Nice(s: string, isControl: char -> bool) {
    CharsOk(s, isControl) && PairsOk(s) && EdgesOk(s)
  }

  predicate NoTriple(s: string) {
    forall i | 0 <= i < |s| - 2 :: !(s[i] == '\n' && s[i + 1] == '\n' && s[i + 2] == '\n')
  }

  /** No control character or tab, no double space, no line with edge whitespace, no three newlines in
      a row, and no whitespace at either end. */
  predicate InNormalForm(s: string, isControl: char -> bool) {
    && Nice(s, isControl)
    && NoTriple(s)
    && (s != "" ==> s[0] != '\n' && s[|s| - 1] != '\n')
  }

  // ----- the output is in normal form -----

  lemma {:induction false} FilteredChars(s: string, isControl: char -> bool)
    ensures forall c <- Filtered(s, isControl) :: c == '\n' || c == '\t' || !isControl(c)
  {
    if s != "" { FilteredChars(s[1..], isControl); }
  }

  lemma {:induction false} SplitChars(s: string)
    ensures forall l, c | l in Split(s) && c in l :: c in s
  {
    if s != "" { SplitChars(s[1..]); }
  }

  lemma {:induction false} CollapsedOk(s: string, isControl: char -> bool)
    requires '\n' !in s && !isControl(' ') && forall c <- s :: c == '\t' || !isControl(c)
    ensures '\n' !in Collapsed(s) && CharsOk(Collapsed(s), isControl) && PairsOk(Collapsed(s))
    ensures Collapsed(s) != "" && Collapsed(s)[0] == ' ' ==> Horizontal(s[0])
    ensures s == "" ==> Collapsed(s) == ""
    decreases |s|
  {
    if s != "" {
      var n := Run(s, Horizontal);
      var rest := s[if n > 0 then n else 1..];
      CollapsedOk(rest, isControl);
      var tail := Collapsed(rest);
      if rest != "" && n > 0 { assert rest[0] == s[n]; }
      assert Collapsed(s) == [if n > 0 then ' ' else s[0]] + tail;
    }
  }

  lemma StripIsSlice(s: string) returns (a: nat, b: nat)
    ensures a <= b <= |s| && Strip(s) == s[a..b]
  {
    a := Run(s, IsSpace);
    b := a + Kept(s[a..]);
    assert s[a..b] == s[a..][..b - a];
  }

  lemma SliceOk(s: string, a: nat, b: nat, isControl: char -> bool)
    requires a <= b <= |s| && CharsOk(s, isControl) && PairsOk(s)
    ensures CharsOk(s[a..b], isControl) && PairsOk(s[a..b])
    ensures NoTriple(s) ==> NoTriple(s[a..b])
  {
    var t := s[a..b];
    assert forall i | 0 <= i < |t| :: t[i] == s[a + i];
    assert forall c <- t :: c in s;
    forall i | 0 <= i < |t| - 1 ensures PairOk(t[i], t[i + 1]) {
      assert PairOk(s[a + i], s[a + i + 1]);
    }
  }

  lemma StripEdges(s: string)
    ensures Strip(s) != "" ==> !IsSpace(Strip(s)[0]) && !IsSpace(Strip(s)[|Strip(s)| - 1])
  {
    var a := Run(s, IsSpace);
    if Strip(s) != "" { assert Strip(s)[0] == s[a]; }
  }

  lemma TidiedLineNice(line: string, isControl: char -> bool)
    requires '\n' !in line && !isControl(' ') && forall c <- line :: c == '\t' || !isControl(c)
    ensures Nice(Tidy(line), isControl) && '\n' !in Tidy(line)
  {
    CollapsedOk(line, isControl);
    var a, b := StripIsSlice(Collapsed(line));
    SliceOk(Collapsed(line), a, b, isControl);
    StripEdges(Collapsed(line));
  }

  lemma {:induction false} JoinNice(lines: seq<string>, isControl: char -> bool)
    requires forall l <- lines :: Nice(l, isControl)
    ensures Nice(Join(lines), isControl)
  {
    if |lines| > 1 {
      JoinNice(lines[1..], isControl);
      NiceAppend(lines[0], "\n", isControl);
      NiceAppend(lines[0] + "\n", Join(lines[1..]), isControl);
    }
  }

  lemma NiceAppend(a: string, b: string, isControl: char -> bool)
    requires Nice(a, isControl) && Nice(b, isControl)
    requires (a != "" && a[|a| - 1] == '\n') || b == "\n"
    ensures Nice(a + b, isControl)
  {
    forall i | 0 <= i < |a + b| - 1 ensures PairOk((a + b)[i], (a + b)[i + 1]) {
      if i < |a| - 1 { assert PairOk(a[i], a[i + 1]); }
      else if i >= |a| { assert PairOk(b[i - |a|], b[i - |a| + 1]); }
    }
  }

  /** Squeezing keeps the pairs and the ends, and leaves no three newlines in a row. */
  lemma {:induction false} SqueezedOk(s: string, isControl: char -> bool)
    requires CharsOk(s, isControl) && PairsOk(s)
    ensures CharsOk(Squeezed(s), isControl) && PairsOk(Squeezed(s)) && NoTriple(Squeezed(s))
    ensures s == "" <==> Squeezed(s) == ""
    ensures s != "" ==> Squeezed(s)[0] == s[0]
    decreases |s|
  {
    if s != "" {
      var k := Block(s);
      var rest := s[k..];
      assert rest == s[k..|s|] && s[..k] == s[0..k];
      SliceOk(s, k, |s|, isControl);
      SliceOk(s, 0, k, isControl);
      SqueezedOk(rest, isControl);
      if rest != "" {
        assert rest[0] == s[k] && PairOk(s[k - 1], s[k]);
      }
      HeadOk(s, isControl);
      SqueezeStep(Head(s), Squeezed(rest), isControl);
    }
  }

  /** A block is squeezed to one or two newlines, or is a single other character. */
  lemma HeadOk(s: string, isControl: char -> bool)
    requires s != "" && CharsOk(s, isControl)
    ensures Head(s) == "\n" || Head(s) == "\n\n" || (Head(s) == [s[0]] && s[0] != '\n')
    ensures CharsOk(Head(s), isControl)
    ensures Head(s)[0] == '\n' && Block(s) < |s| ==> s[Block(s)] != '\n'
  {
    assert s[0] in s;
  }

  lemma SqueezeStep(head: string, tail: string, isControl: char -> bool)
    requires CharsOk(head, isControl) && CharsOk(tail, isControl) && PairsOk(tail) && NoTriple(tail)
    requires head == "\n" || head == "\n\n" || (|head| == 1 && head[0] != '\n')
    requires tail != "" ==> PairOk(head[|head| - 1], tail[0])
    requires head[0] == '\n' && tail != "" ==> tail[0] != '\n'
    ensures CharsOk(head + tail, isControl) && PairsOk(head + tail) && NoTriple(head + tail)
  {
    var t := head + tail;
    assert forall i | |head| <= i < |t| :: t[i] == tail[i - |head|];
    forall i | 0 <= i < |t| - 1 ensures PairOk(t[i], t[i + 1]) {
      if i >= |head| { assert PairOk(tail[i - |head|], tail[i - |head| + 1]); }
    }
  }

  /** Whatever the input, the output is in normal form. */
  lemma OutputInNormalForm(s: string, isControl: char -> bool)
    requires !isControl(' ')
    ensures InNormalForm(Normalized(s, isControl), isControl)
  {
    var filtered := Filtered(s, isControl);
    FilteredChars(s, isControl);
    SplitChars(filtered);
    var lines := Split(filtered);
    var tidied := Tidied(lines);
    forall l | l in tidied ensures Nice(l, isControl) {
      var i :| 0 <= i < |tidied| && tidied[i] == l;
      assert lines[i] in lines;
      TidiedLineNice(lines[i], isControl);
    }
    JoinNice(tidied, isControl);
    var joined := Join(tidied);
    SqueezedOk(joined, isControl);
    var a, b := StripIsSlice(Squeezed(joined));
    SliceOk(Squeezed(joined), a, b, isControl);
    StripEdges(Squeezed(joined));
  }

  // ----- a text in normal form is left alone -----

  lemma {:induction false} FilteredSame(s: string, isControl: char -> bool)
    requires CharsOk(s, isControl)
    ensures Filtered(s, isControl) == s
  {
    if s != "" {
      assert s[1..] == s[1..|s|];
      assert forall c <- s[1..] :: c in s;
      FilteredSame(s[1..], isControl);
    }
  }

  lemma DoubleSpace(s: string)
    requires '\t' !in s && Run(s, Horizontal) >= 2
    ensures !PairsOk(s)
  {
    assert s[0] in s && s[1] in s && Horizontal(s[0]) && Horizontal(s[1]);
    assert !PairOk(s[0], s[1]);
  }

  lemma {:induction false} CollapsedSame(s: string)
    requires '\t' !in s && PairsOk(s)
    ensures Collapsed(s) == s
    decreases |s|
  {
    if s != "" {
      var n := Run(s, Horizontal);
      if n >= 2 { DoubleSpace(s); }
      var rest := s[1..];
      forall i | 0 <= i < |rest| - 1 ensures PairOk(rest[i], rest[i + 1]) { assert PairOk(s[i + 1], s[i + 2]); }
      CollapsedSame(rest);
      assert s == [s[0]] + rest;
      if n == 1 { assert Horizontal(s[0]) && s[0] in s; }
    }
  }

  lemma {:induction false} JoinSplit(s: string)
    ensures Join(Split(s)) == s
  {
    if s != "" {
      JoinSplit(s[1..]);
      var rest := Split(s[1..]);
      if s[0] != '\n' {
        var lines := [[s[0]] + rest[0]] + rest[1..];
        assert lines[1..] == rest[1..];
        assert [s[0]] + s[1..] == s;
      } else {
        assert ([""] + rest)[1..] == rest;
        assert "\n" + s[1..] == s;
      }
    }
  }

  /** The lines of a text with good pairs have no blank edges, but for the first one's left edge. */
  ghost predicate LinesOk(lines: seq<string>, isControl: char -> bool) {
    && (forall i | 0 <= i < |lines| :: CharsOk(lines[i], isControl) && PairsOk(lines[i]))
    && (forall i | 0 <= i < |lines| && lines[i] != "" :: !IsBlank(lines[i][|lines[i]| - 1]))
    && (forall i | 1 <= i < |lines| && lines[i] != "" :: !IsBlank(lines[i][0]))
  }

  lemma {:induction false} SplitNice(s: string, isControl: char -> bool)
    requires CharsOk(s, isControl) && PairsOk(s) && (s != "" ==> !IsBlank(s[|s| - 1]))
    ensures LinesOk(Split(s), isControl)
  {
    if s != "" {
      var tail := s[1..];
      assert tail == s[1..|s|];
      SliceOk(s, 1, |s|, isControl);
      SplitNice(tail, isControl);
      var rest := Split(tail);
      if rest[0] != "" { assert rest[0][0] == tail[..|rest[0]|][0] == tail[0]; }
      if |s| > 1 { assert PairOk(s[0], s[1]); }
      assert s[0] in s;
      if s[0] == '\n' {
        EmptyLineOk(rest, isControl);
      } else {
        LongerLineOk(s[0], rest, isControl);
      }
    }
  }

  lemma EmptyLineOk(lines: seq<string>, isControl: char -> bool)
    requires lines != [] && LinesOk(lines, isControl) && (lines[0] != "" ==> !IsBlank(lines[0][0]))
    ensures LinesOk([""] + lines, isControl)
  {
    var all := [""] + lines;
    assert forall i | 1 <= i < |all| :: all[i] == lines[i - 1];
  }

  lemma LongerLineOk(c: char, lines: seq<string>, isControl: char -> bool)
    requires lines != [] && LinesOk(lines, isControl) && CharsOk([c], isControl)
    requires if lines[0] != "" then PairOk(c, lines[0][0]) else !IsBlank(c)
    ensures LinesOk([[c] + lines[0]] + lines[1..], isControl)
  {
    FirstLineOk(c, lines[0], isControl);
    var all := [[c] + lines[0]] + lines[1..];
    assert forall i | 1 <= i < |all| :: all[i] == lines[i];
  }

  lemma FirstLineOk(c: char, line: string, isControl: char -> bool)
    requires CharsOk([c], isControl) && CharsOk(line, isControl) && PairsOk(line)
    requires line != "" ==> PairOk(c, line[0]) && !IsBlank(line[|line| - 1])
    requires line == "" ==> !IsBlank(c)
    ensures CharsOk([c] + line, isControl) && PairsOk([c] + line) && !IsBlank(([c] + line)[|line|])
  {
    forall i | 0 <= i < |[c] + line| - 1 ensures PairOk(([c] + line)[i], ([c] + line)[i + 1]) {
      if i > 0 { assert PairOk(line[i - 1], line[i]); }
    }
  }

  lemma StripSame(s: string)
    requires s != "" ==> !IsSpace(s[0]) && !IsSpace(s[|s| - 1])
    ensures Strip(s) == s
  {
    assert s[0..] == s && s[..|s|] == s;
  }

  lemma TidySame(line: string, isControl: char -> bool)
    requires Nice(line, isControl) && '\n' !in line
    ensures Tidy(line) == line
  {
    CollapsedSame(line);
    if line != "" { assert line[0] in line && line[|line| - 1] in line; }
    StripSame(line);
  }

  lemma TidiedSame(lines: seq<string>, isControl: char -> bool)
    requires forall l <- lines :: Nice(l, isControl) && '\n' !in l
    ensures Tidied(lines) == lines
  {
    forall i | 0 <= i < |lines| ensures Tidied(lines)[i] == lines[i] {
      assert lines[i] in lines;
      TidySame(lines[i], isControl);
    }
  }

  lemma LongRun(s: string)
    requires Run(s, Newline) >= 3
    ensures !NoTriple(s)
  {
    assert Newline(s[0]) && Newline(s[1]) && Newline(s[2]);
  }

  lemma NoTripleAfter(s: string, k: nat)
    requires NoTriple(s) && k <= |s|
    ensures NoTriple(s[k..])
  {
    var rest := s[k..];
    forall i | 0 <= i < |rest| - 2 ensures !(rest[i] == '\n' && rest[i + 1] == '\n' && rest[i + 2] == '\n') {
      assert rest[i] == s[k + i] && rest[i + 1] == s[k + i + 1] && rest[i + 2] == s[k + i + 2];
    }
  }

  lemma HeadSame(s: string)
    requires s != "" && NoTriple(s)
    ensures Head(s) == s[..Block(s)]
  {
    if Run(s, Newline) >= 3 { LongRun(s); }
  }

  lemma {:induction false} SqueezedSame(s: string)
    requires NoTriple(s)
    ensures Squeezed(s) == s
    decreases |s|
  {
    if s != "" {
      var k := Block(s);
      HeadSame(s);
      NoTripleAfter(s, k);
      SqueezedSame(s[k..]);
      assert s == s[..k] + s[k..];
    }
  }

  lemma LinesNice(s: string, isControl: char -> bool)
    requires InNormalForm(s, isControl)
    ensures forall l <- Split(s) :: Nice(l, isControl) && '\n' !in l
  {
    SplitNice(s, isControl);
    var lines := Split(s);
    if lines[0] != "" { assert lines[0][0] == s[..|lines[0]|][0] == s[0]; }
    forall l | l in lines ensures Nice(l, isControl) {
      var i :| 0 <= i < |lines| && lines[i] == l;
    }
  }

  lemma NormalFormIsFixed(s: string, isControl: char -> bool)
    requires InNormalForm(s, isControl)
    ensures Normalized(s, isControl) == s
  {
    FilteredSame(s, isControl);
    LinesNice(s, isControl);
    TidiedSame(Split(s), isControl);
    JoinSplit(s);
    SqueezedSame(s);
    StripSame(s);
  }

  /** The texts that normalization leaves alone are exactly those in normal form. */
  lemma FixedPoints(s: string, isControl: char -> bool)
    requires !isControl(' ')
    ensures Normalized(s, isControl) == s <==> InNormalForm(s, isControl)
  {
    OutputInNormalForm(s, isControl);
    if InNormalForm(s, isControl) { NormalFormIsFixed(s, isControl); }
  }

  lemma Idempotent(s: string, isControl: char -> bool)
    requires !isControl(' ')
    ensures Normalized(Normalized(s, isControl), isControl) == Normalized(s, isControl)
  {
    OutputInNormalForm(s, isControl);
    FixedPoints(Normalized(s, isControl), isControl);
  }

  // ----- words and gaps -----

  /** A text taken apart: words, and the gaps between them.  A gap with newlines is one line break or, for
      two and more, a blank line; a gap without keeps its blanks, each run of spaces and tabs as one space. */
  datatype Piece = Word(text: string) | Gap(breaks: nat, blanks: string)

  /** The text is read as if set between blank lines, so what surrounds its words makes no difference. */
  const FRAME := Gap(2, "")

  predicate Dropped(c: char, isControl: char -> bool) {
    c != '\n' && c != '\t' && isControl(c)
  }

  /** One more character in front of a text taken apart. */
  function Before(c: char, pieces: seq<Piece>, isControl: char -> bool): seq<Piece> {
    if Dropped(c, isControl) then pieces
    else if !IsSpace(c) then
      if pieces != [] && pieces[0].Word? then [Word([c] + pieces[0].text)] + pieces[1..] else [Word([c])] + pieces
    else if pieces != [] && pieces[0].Gap? then [Widened(c, pieces[0])] + pieces[1..]
    else [Widened(c, Gap(0, ""))] + pieces
  }

  function Widened(c: char, gap: Piece): Piece
    requires gap.Gap?
  {
    if c == '\n' then Gap(if gap.breaks == 0 then 1 else 2, "")
    else if gap.breaks > 0 then gap
    else if c != ' ' && c != '\t' then Gap(0, [c] + gap.blanks)
    else if gap.blanks != "" && gap.blanks[0] == ' ' then gap
    else Gap(0, " " + gap.blanks)
  }

  function Onto(s: string, pieces: seq<Piece>, isControl: char -> bool): seq<Piece> {
    if s == "" then pieces else Before(s[0], Onto(s[1..], pieces, isControl), isControl)
  }

  /** A blank line in front. */
  function Framed(pieces: seq<Piece>, isControl: char -> bool): seq<Piece> {
    Before('\n', Before('\n', pieces, isControl), isControl)
  }

  function Pieces(s: string, isControl: char -> bool): seq<Piece> {
    Framed(Onto(s, [FRAME], isControl), isControl)
  }

  /** The words and gaps written out, but for the last piece. */
  function Written(pieces: seq<Piece>): string {
    if |pieces| <= 1 then ""
    else
      (match pieces[0]
       case Word(text) => text
       case Gap(0, blanks) => blanks
       case Gap(1, _) => "\n"
       case Gap(_, _) => "\n\n") + Written(pieces[1..])
  }

  lemma {:induction false} OntoAppend(a: string, b: string, pieces: seq<Piece>, isControl: char -> bool)
    ensures Onto(a + b, pieces, isControl) == Onto(a, Onto(b, pieces, isControl), isControl)
  {
    if a == "" {
      assert a + b == b;
    } else {
      assert (a + b)[1..] == a[1..] + b;
      OntoAppend(a[1..], b, pieces, isControl);
    }
  }

  lemma {:induction false} FilteredPieces(s: string, pieces: seq<Piece>, isControl: char -> bool)
    ensures Onto(Filtered(s, isControl), pieces, isControl) == Onto(s, pieces, isControl)
  {
    if s != "" {
      var rest := Filtered(s[1..], isControl);
      FilteredPieces(s[1..], pieces, isControl);
      if Dropped(s[0], isControl) {
        assert Filtered(s, isControl) == rest;
      } else {
        assert Filtered(s, isControl) == [s[0]] + rest && ([s[0]] + rest)[1..] == rest;
      }
    }
  }

  lemma SpaceOrTab(c: char, pieces: seq<Piece>, isControl: char -> bool)
    requires Horizontal(c) && !isControl(' ')
    ensures Before(c, pieces, isControl) == Before(' ', pieces, isControl)
    ensures Before(' ', Before(' ', pieces, isControl), isControl) == Before(' ', pieces, isControl)
  {
  }

  /** A run of spaces and tabs in front counts as one space. */
  lemma {:induction false} RunPieces(s: string, pieces: seq<Piece>, isControl: char -> bool)
    requires s != "" && !isControl(' ') && forall i | 0 <= i < |s| :: Horizontal(s[i])
    ensures Onto(s, pieces, isControl) == Before(' ', pieces, isControl)
  {
    SpaceOrTab(s[0], Onto(s[1..], pieces, isControl), isControl);
    if |s| > 1 {
      RunPieces(s[1..], pieces, isControl);
      SpaceOrTab(s[0], pieces, isControl);
    } else {
      assert Onto(s[1..], pieces, isControl) == pieces;
    }
  }

  lemma {:induction false} CollapsedPieces(s: string, pieces: seq<Piece>, isControl: char -> bool)
    requires !isControl(' ')
    ensures Onto(Collapsed(s), pieces, isControl) == Onto(s, pieces, isControl)
    decreases |s|
  {
    if s != "" {
      var n := Run(s, Horizontal);
      if n > 0 {
        CollapsedPieces(s[n..], pieces, isControl);
        assert s == s[..n] + s[n..];
        OntoAppend(s[..n], s[n..], pieces, isControl);
        RunPieces(s[..n], Onto(s[n..], pieces, isControl), isControl);
        assert (" " + Collapsed(s[n..]))[1..] == Collapsed(s[n..]);
      } else {
        CollapsedPieces(s[1..], pieces, isControl);
        assert ([s[0]] + Collapsed(s[1..]))[1..] == Collapsed(s[1..]);
      }
    }
  }

  predicate Broken(pieces: seq<Piece>, breaks: nat) {
    pieces != [] && pieces[0].Gap? && pieces[0].breaks >= breaks && pieces[0].blanks == ""
  }

  /** Blanks before a line break make no difference. */
  lemma {:induction false} BlanksBeforeBreak(s: string, pieces: seq<Piece>, isControl: char -> bool)
    requires Broken(pieces, 1) && forall i | 0 <= i < |s| :: IsBlank(s[i])
    ensures Onto(s, pieces, isControl) == pieces
  {
    if s != "" { BlanksBeforeBreak(s[1..], pieces, isControl); }
  }

  /** Nor do blanks after one. */
  lemma {:induction false} BlanksAfterBreak(s: string, pieces: seq<Piece>, isControl: char -> bool)
    requires forall i | 0 <= i < |s| :: IsBlank(s[i])
    ensures Before('\n', Onto(s, pieces, isControl), isControl) == Before('\n', pieces, isControl)
  {
    if s != "" { BlanksAfterBreak(s[1..], pieces, isControl); }
  }

  lemma BreakIsBroken(pieces: seq<Piece>, isControl: char -> bool)
    ensures Broken(Before('\n', pieces, isControl), 1)
  {
  }

  lemma EdgePieces(left: string, middle: string, right: string, pieces: seq<Piece>, isControl: char -> bool)
    requires Broken(pieces, 1)
    requires (forall i | 0 <= i < |left| :: IsBlank(left[i])) && forall i | 0 <= i < |right| :: IsBlank(right[i])
    ensures Before('\n', Onto(left + (middle + right), pieces, isControl), isControl)
            == Before('\n', Onto(middle, pieces, isControl), isControl)
  {
    OntoAppend(left, middle + right, pieces, isControl);
    OntoAppend(middle, right, pieces, isControl);
    BlanksBeforeBreak(right, pieces, isControl);
    BlanksAfterBreak(left, Onto(middle, pieces, isControl), isControl);
  }

  lemma StripParts(s: string) returns (left: string, right: string)
    ensures s == left + (Strip(s) + right)
    ensures (forall i | 0 <= i < |left| :: IsSpace(left[i])) && forall i | 0 <= i < |right| :: IsSpace(right[i])
  {
    var k := Run(s, IsSpace);
    var rest := s[k..];
    var n := Kept(rest);
    left, right := s[..k], rest[n..];
    assert Strip(s) == rest[..n];
    Parted(rest, n);
    Parted(s, k);
  }

  lemma Parted(s: string, n: nat)
    requires n <= |s|
    ensures s == s[..n] + s[n..]
  {
  }

  lemma StripPieces(s: string, pieces: seq<Piece>, isControl: char -> bool)
    requires '\n' !in s && Broken(pieces, 1)
    ensures Before('\n', Onto(Strip(s), pieces, isControl), isControl)
            == Before('\n', Onto(s, pieces, isControl), isControl)
  {
    var left, right := StripParts(s);
    assert forall c <- left :: c in s;
    assert forall c <- right :: c in Strip(s) + right && c in s;
    EdgePieces(left, Strip(s), right, pieces, isControl);
  }

  lemma TidyPieces(line: string, pieces: seq<Piece>, isControl: char -> bool)
    requires '\n' !in line && !isControl(' ') && Broken(pieces, 1)
    ensures Before('\n', Onto(Tidy(line), pieces, isControl), isControl)
            == Before('\n', Onto(line, pieces, isControl), isControl)
  {
    CollapsedSameBreaks(line);
    StripPieces(Collapsed(line), pieces, isControl);
    CollapsedPieces(line, pieces, isControl);
  }

  lemma {:induction false} CollapsedSameBreaks(s: string)
    requires '\n' !in s
    ensures '\n' !in Collapsed(s)
    decreases |s|
  {
    if s != "" { CollapsedSameBreaks(s[if Run(s, Horizontal) > 0 then Run(s, Horizontal) else 1..]); }
  }

  lemma LinePieces(first: string, rest: string, pieces: seq<Piece>, isControl: char -> bool)
    ensures Onto(first + "\n" + rest, pieces, isControl)
            == Onto(first, Before('\n', Onto(rest, pieces, isControl), isControl), isControl)
  {
    assert first + "\n" + rest == first + ("\n" + rest) && ("\n" + rest)[1..] == rest;
    OntoAppend(first, "\n" + rest, pieces, isControl);
  }

  lemma {:induction false} TidiedPieces(lines: seq<string>, pieces: seq<Piece>, isControl: char -> bool)
    requires (forall l <- lines :: '\n' !in l) && !isControl(' ') && Broken(pieces, 1)
    ensures Before('\n', Onto(Join(Tidied(lines)), pieces, isControl), isControl)
            == Before('\n', Onto(Join(lines), pieces, isControl), isControl)
  {
    if lines != [] {
      TidyPieces(lines[0], pieces, isControl);
      if |lines| > 1 {
        var tidied := Tidied(lines);
        assert tidied[1..] == Tidied(lines[1..]);
        TidiedPieces(lines[1..], pieces, isControl);
        LinePieces(lines[0], Join(lines[1..]), pieces, isControl);
        LinePieces(tidied[0], Join(tidied[1..]), pieces, isControl);
        var below := Before('\n', Onto(Join(lines[1..]), pieces, isControl), isControl);
        BreakIsBroken(Onto(Join(lines[1..]), pieces, isControl), isControl);
        TidyPieces(lines[0], below, isControl);
      }
    }
  }

  lemma TwoBreaks(pieces: seq<Piece>, isControl: char -> bool)
    ensures Onto("\n\n", pieces, isControl) == Framed(pieces, isControl)
    ensures Before('\n', Framed(pieces, isControl), isControl) == Framed(pieces, isControl)
  {
    assert "\n\n"[1..] == "\n" && "\n"[1..] == "";
    assert Onto("", pieces, isControl) == pieces;
    assert Onto("\n", pieces, isControl) == Before('\n', pieces, isControl);
  }

  /** Two newlines or more in front count as a blank line. */
  lemma {:induction false} BreaksPieces(s: string, pieces: seq<Piece>, isControl: char -> bool)
    requires |s| >= 2 && forall i | 0 <= i < |s| :: s[i] == '\n'
    ensures Onto(s, pieces, isControl) == Framed(pieces, isControl)
  {
    TwoBreaks(pieces, isControl);
    if |s| > 2 { BreaksPieces(s[1..], pieces, isControl); } else { assert s == "\n\n"; }
  }

  lemma {:induction false} SqueezedPieces(s: string, pieces: seq<Piece>, isControl: char -> bool)
    ensures Onto(Squeezed(s), pieces, isControl) == Onto(s, pieces, isControl)
    decreases |s|
  {
    if s != "" {
      var k := Block(s);
      assert s == s[..k] + s[k..];
      SqueezedPieces(s[k..], pieces, isControl);
      OntoAppend(s[..k], s[k..], pieces, isControl);
      OntoAppend(Head(s), Squeezed(s[k..]), pieces, isControl);
      if Run(s, Newline) >= 3 {
        BreaksPieces(s[..k], Onto(s[k..], pieces, isControl), isControl);
        TwoBreaks(Onto(s[k..], pieces, isControl), isControl);
      }
    }
  }

  /** Whitespace in front of, or behind, the words is lost in the frame. */
  lemma {:induction false} SpaceInFrame(s: string, pieces: seq<Piece>, isControl: char -> bool)
    requires forall i | 0 <= i < |s| :: IsSpace(s[i])
    ensures Onto(s, [FRAME], isControl) == [FRAME]
    ensures Framed(Onto(s, pieces, isControl), isControl) == Framed(pieces, isControl)
  {
    if s != "" {
      SpaceInFrame(s[1..], pieces, isControl);
      SpaceBeforeFrame(s[0], Onto(s[1..], pieces, isControl), isControl);
    }
  }

  lemma SpaceBeforeFrame(c: char, pieces: seq<Piece>, isControl: char -> bool)
    requires IsSpace(c)
    ensures Before(c, [FRAME], isControl) == [FRAME]
    ensures Framed(Before(c, pieces, isControl), isControl) == Framed(pieces, isControl)
  {
  }

  lemma StripInFrame(s: string, isControl: char -> bool)
    ensures Pieces(Strip(s), isControl) == Pieces(s, isControl)
  {
    var left, right := StripParts(s);
    OntoAppend(left, Strip(s) + right, [FRAME], isControl);
    OntoAppend(Strip(s), right, [FRAME], isControl);
    SpaceInFrame(right, [FRAME], isControl);
    SpaceInFrame(left, Onto(Strip(s), [FRAME], isControl), isControl);
  }

  /** Normalization keeps the words, in order, and between two of them no line break, one, or a blank line,
      as there was, and the blanks of a gap on one line. */
  lemma KeepsPieces(s: string, isControl: char -> bool)
    requires !isControl(' ')
    ensures Pieces(Normalized(s, isControl), isControl) == Pieces(s, isControl)
  {
    var filtered := Filtered(s, isControl);
    var lines := Split(filtered);
    var joined := Join(Tidied(lines));
    StripInFrame(Squeezed(joined), isControl);
    SqueezedPieces(joined, [FRAME], isControl);
    TidiedPieces(lines, [FRAME], isControl);
    JoinSplit(filtered);
    FilteredPieces(s, [FRAME], isControl);
  }

  // ----- a text in normal form is its pieces -----

  /** The pieces in front of the frame spell `s`, the first one beginning as `s` does. */
  ghost predicate Spells(pieces: seq<Piece>, s: string) {
    && pieces != [] && Written(pieces) == s
    && (s == "" <==> pieces == [FRAME])
    && (s != "" ==>
          && |pieces| > 1
          && (pieces[0].Word? <==> !IsSpace(s[0]))
          && (s[0] == '\n' ==> pieces[0] == Gap(if |s| > 1 && s[1] == '\n' then 2 else 1, ""))
          && (IsBlank(s[0]) ==> pieces[0].Gap? && pieces[0].breaks == 0
                                && pieces[0].blanks != "" && pieces[0].blanks[0] == s[0]))
  }

  lemma {:induction false} NormalPieces(s: string, isControl: char -> bool)
    requires CharsOk(s, isControl) && PairsOk(s) && NoTriple(s)
    requires s != "" ==> !IsSpace(s[|s| - 1])
    ensures Spells(Onto(s, [FRAME], isControl), s)
  {
    if s != "" {
      var rest := s[1..];
      assert rest == s[1..|s|];
      SliceOk(s, 1, |s|, isControl);
      NormalPieces(rest, isControl);
      var pieces := Onto(rest, [FRAME], isControl);
      assert s[0] in s && s == [s[0]] + rest;
      if rest != "" { assert PairOk(s[0], s[1]) && s[1] in s && rest[0] == s[1]; }
      OneMore(s[0], rest, pieces, isControl);
    }
  }

  lemma OneMore(c: char, rest: string, pieces: seq<Piece>, isControl: char -> bool)
    requires Spells(pieces, rest) && !Dropped(c, isControl) && c != '\t'
    requires rest == "" ==> !IsSpace(c)
    requires rest != "" ==> PairOk(c, rest[0]) && rest[0] != '\t'
    requires |rest| > 1 ==> !(c == '\n' && rest[0] == '\n' && rest[1] == '\n')
    ensures Spells(Before(c, pieces, isControl), [c] + rest)
  {
    if !IsSpace(c) {
      OneMoreInk(c, rest, pieces, isControl);
    } else if c == '\n' {
      OneMoreBreak(rest, pieces, isControl);
    } else {
      OneMoreBlank(c, rest, pieces, isControl);
    }
  }

  lemma OneMoreInk(c: char, rest: string, pieces: seq<Piece>, isControl: char -> bool)
    requires Spells(pieces, rest) && !Dropped(c, isControl) && !IsSpace(c)
    ensures Spells(Before(c, pieces, isControl), [c] + rest)
  {
    if rest != "" && !IsSpace(rest[0]) {
      WordGrows(c, rest, pieces);
    } else {
      WordBegins(c, rest, pieces);
    }
  }

  lemma WordGrows(c: char, rest: string, pieces: seq<Piece>)
    requires Spells(pieces, rest) && rest != "" && pieces[0].Word? && !IsSpace(c)
    ensures Spells([Word([c] + pieces[0].text)] + pieces[1..], [c] + rest)
  {
    var longer := [Word([c] + pieces[0].text)] + pieces[1..];
    assert longer[1..] == pieces[1..];
    assert [c] + (pieces[0].text + Written(pieces[1..])) == ([c] + pieces[0].text) + Written(pieces[1..]);
  }

  lemma WordBegins(c: char, rest: string, pieces: seq<Piece>)
    requires Spells(pieces, rest) && !IsSpace(c)
    ensures Spells([Word([c])] + pieces, [c] + rest)
  {
    assert ([Word([c])] + pieces)[1..] == pieces;
  }

  lemma OneMoreBreak(rest: string, pieces: seq<Piece>, isControl: char -> bool)
    requires Spells(pieces, rest) && rest != "" && !IsBlank(rest[0])
    requires |rest| > 1 && rest[0] == '\n' ==> rest[1] != '\n'
    ensures Spells(Before('\n', pieces, isControl), "\n" + rest)
  {
    var longer := Before('\n', pieces, isControl);
    if IsSpace(rest[0]) {
      assert longer == [Gap(2, "")] + pieces[1..] && longer[1..] == pieces[1..];
      assert "\n" + rest == "\n" + ("\n" + Written(pieces[1..]));
    } else {
      assert longer == [Gap(1, "")] + pieces && longer[1..] == pieces;
    }
  }

  lemma OneMoreBlank(c: char, rest: string, pieces: seq<Piece>, isControl: char -> bool)
    requires Spells(pieces, rest) && !Dropped(c, isControl) && c != '\t' && IsBlank(c)
    requires rest != "" && PairOk(c, rest[0])
    ensures Spells(Before(c, pieces, isControl), [c] + rest)
  {
    var longer := Before(c, pieces, isControl);
    if IsSpace(rest[0]) {
      assert longer == [Gap(0, [c] + pieces[0].blanks)] + pieces[1..] && longer[1..] == pieces[1..];
      assert [c] + rest == ([c] + pieces[0].blanks) + Written(pieces[1..]);
    } else {
      assert [c] + "" == [c] && " " + "" == " ";
      assert longer == [Gap(0, [c])] + pieces && longer[1..] == pieces;
    }
  }

  /** So normalization is taking the text apart and writing its words and gaps out again. */
  lemma NormalizedIsRewritten(s: string, isControl: char -> bool)
    requires !isControl(' ')
    ensures Pieces(s, isControl)[0] == FRAME
    ensures Normalized(s, isControl) == Written(Pieces(s, isControl)[1..])
  {
    var t := Normalized(s, isControl);
    OutputInNormalForm(s, isControl);
    KeepsPieces(s, isControl);
    NormalPieces(t, isControl);
    var pieces := Onto(t, [FRAME], isControl);
    if t == "" {
      assert Pieces(t, isControl) == [FRAME];
    } else {
      assert Pieces(t, isControl) == [FRAME] + pieces;
    }
  }

  // ----- nothing but whitespace and control characters is lost -----

  /** The characters that carry text, in order. */
  function Ink(s: string, isControl: char -> bool): string {
    if s == "" then ""
    else (if IsSpace(s[0]) || isControl(s[0]) then "" else [s[0]]) + Ink(s[1..], isControl)
  }

  lemma {:induction false} InkAppend(a: string, b: string, isControl: char -> bool)
    ensures Ink(a + b, isControl) == Ink(a, isControl) + Ink(b, isControl)
  {
    if a == "" {
      assert a + b == b;
    } else {
      assert (a + b)[1..] == a[1..] + b;
      InkAppend(a[1..], b, isControl);
    }
  }

  lemma {:induction false} NoInk(s: string, isControl: char -> bool)
    requires forall i | 0 <= i < |s| :: IsSpace(s[i])
    ensures Ink(s, isControl) == ""
  {
    if s != "" { NoInk(s[1..], isControl); }
  }

  lemma {:induction false} FilteredInk(s: string, isControl: char -> bool)
    ensures Ink(Filtered(s, isControl), isControl) == Ink(s, isControl)
  {
    if s != "" {
      var kept := if s[0] == '\n' || s[0] == '\t' || !isControl(s[0]) then [s[0]] else "";
      InkAppend(kept, Filtered(s[1..], isControl), isControl);
      FilteredInk(s[1..], isControl);
      assert kept != "" ==> kept[1..] == "";
    }
  }

  lemma {:induction false} CollapsedInk(s: string, isControl: char -> bool)
    ensures Ink(Collapsed(s), isControl) == Ink(s, isControl)
    decreases |s|
  {
    if s != "" {
      var n := Run(s, Horizontal);
      var k := if n > 0 then n else 1;
      assert s == s[..k] + s[k..];
      InkAppend(s[..k], s[k..], isControl);
      InkAppend(if n > 0 then " " else [s[0]], Collapsed(s[k..]), isControl);
      CollapsedInk(s[k..], isControl);
      if n > 0 {
        NoInk(s[..n], isControl);
        NoInk(" ", isControl);
      } else {
        assert s[..1] == [s[0]];
      }
    }
  }

  lemma StripInk(s: string, isControl: char -> bool)
    ensures Ink(Strip(s), isControl) == Ink(s, isControl)
  {
    var k := Run(s, IsSpace);
    DropInk(s, k, isControl);
    var left := s[k..];
    var n := Kept(left);
    assert left == left[..n] + left[n..];
    InkAppend(left[..n], left[n..], isControl);
    NoInk(left[n..], isControl);
  }

  lemma DropInk(s: string, k: nat, isControl: char -> bool)
    requires k <= |s| && forall i | 0 <= i < k :: IsSpace(s[i])
    ensures Ink(s[k..], isControl) == Ink(s, isControl)
  {
    assert s == s[..k] + s[k..];
    InkAppend(s[..k], s[k..], isControl);
    NoInk(s[..k], isControl);
  }

  lemma {:induction false} TidiedInk(lines: seq<string>, isControl: char -> bool)
    ensures Ink(Join(Tidied(lines)), isControl) == Ink(Join(lines), isControl)
  {
    if lines != [] {
      CollapsedInk(lines[0], isControl);
      StripInk(Collapsed(lines[0]), isControl);
      if |lines| > 1 {
        var tidied := Tidied(lines);
        assert tidied[1..] == Tidied(lines[1..]);
        TidiedInk(lines[1..], isControl);
        JoinedInk(lines, isControl);
        JoinedInk(tidied, isControl);
      }
    }
  }

  lemma JoinedInk(lines: seq<string>, isControl: char -> bool)
    requires |lines| > 1
    ensures Ink(Join(lines), isControl) == Ink(lines[0], isControl) + Ink(Join(lines[1..]), isControl)
  {
    var first, rest := lines[0], Join(lines[1..]);
    LineInk(first, rest, isControl);
    assert Join(lines) == first + "\n" + rest;
  }

  lemma LineInk(first: string, rest: string, isControl: char -> bool)
    ensures Ink(first + "\n" + rest, isControl) == Ink(first, isControl) + Ink(rest, isControl)
  {
    InkAppend(first + "\n", rest, isControl);
    InkAppend(first, "\n", isControl);
    NoInk("\n", isControl);
  }

  lemma {:induction false} SqueezedInk(s: string, isControl: char -> bool)
    ensures Ink(Squeezed(s), isControl) == Ink(s, isControl)
    decreases |s|
  {
    if s != "" {
      var k := Block(s);
      assert s == s[..k] + s[k..];
      InkAppend(s[..k], s[k..], isControl);
      InkAppend(Head(s), Squeezed(s[k..]), isControl);
      SqueezedInk(s[k..], isControl);
      if Run(s, Newline) > 0 {
        NoInk(s[..k], isControl);
        NoInk(Head(s), isControl);
      }
    }
  }

  /** Normalization keeps every character that is neither whitespace nor a control character, in
      order, and adds none. */
  lemma KeepsInk(s: string, isControl: char -> bool)
    ensures Ink(Normalized(s, isControl), isControl) == Ink(s, isControl)
  {
    var filtered := Filtered(s, isControl);
    FilteredInk(s, isControl);
    var joined := Join(Tidied(Split(filtered)));
    TidiedInk(Split(filtered), isControl);
    JoinSplit(filtered);
    SqueezedInk(joined, isControl);
    StripInk(Squeezed(joined), isControl);
  }
}
