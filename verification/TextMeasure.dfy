/** How Clay cuts a text into measured words. Widths are real numbers; rounding is not modelled. */
module TextMeasure {
  datatype Config = Config(font: nat, size: nat, spacing: nat)

  /** What identifies a measurement: the characters and the settings that enter the hash. */
  datatype Key = Key(text: string, config: Config)

  datatype Dim = Dim(w: real, h: real)

  /** The measuring function that the user of the library supplies. */
  type Measurer = (string, Config) -> Dim

  datatype Piece = Piece(start: nat, length: nat, width: real)

  /** The running state of a measurement: where the current word starts, the current line, and the results so far. */
  datatype Scan = Scan(start: nat, line: real, width: real, height: real, minWidth: real, newlines: bool,
                       pieces: seq<Piece>)

  const START: Scan := Scan(0, 0.0, 0.0, 0.0, 0.0, false, [])

  function Max(a: real, b: real): real {
    if a > b then a else b
  }

  function SpaceWidth(m: Measurer, key: Key): real {
    m(" ", key.config).w
  }

  /** The size of the word that ends in front of `end` is taken into account. */
  function Sized(s: Scan, d: Dim): Scan {
    s.(minWidth := Max(d.w, s.minWidth), height := Max(s.height, d.h))
  }

  function TakeSpace(m: Measurer, key: Key, s: Scan, end: nat): Scan
    requires s.start <= end < |key.text|
  {
    var w := m(key.text[s.start..end], key.config).w + SpaceWidth(m, key);
    s.(pieces := s.pieces + [Piece(s.start, end - s.start + 1, w)], line := s.line + w, start := end + 1)
  }

  function TakeNewline(m: Measurer, key: Key, s: Scan, end: nat): Scan
    requires s.start <= end < |key.text|
  {
    var w := m(key.text[s.start..end], key.config).w;
    s.(pieces := s.pieces + (if end > s.start then [Piece(s.start, end - s.start, w)] else []) + [Piece(end + 1, 0,
      0.0)],
       width := Max(s.line + w, s.width), newlines := true, line := 0.0, start := end + 1)
  }

  function TakeChar(m: Measurer, key: Key, s: Scan, end: nat): (r: Scan)
    requires s.start <= end < |key.text|
    ensures r.start <= end + 1
  {
    var c := key.text[end];
    if c != ' ' && c != '\n' then s
    else
      var sized := Sized(s, m(key.text[s.start..end], key.config));
      if c == ' ' then TakeSpace(m, key, sized, end) else TakeNewline(m, key, sized, end)
  }

  /** The measurement of the first `end` characters. */
  function ScanTo(m: Measurer, key: Key, end: nat): (s: Scan)
    requires end <= |key.text|
    ensures s.start <= end
  {
    if end == 0 then START else TakeChar(m, key, ScanTo(m, key, end - 1), end - 1)
  }

  function Finish(m: Measurer, key: Key, s: Scan): Scan
    requires s.start <= |key.text|
  {
    var e :=
      if s.start < |key.text| then
        var d := m(key.text[s.start..], key.config);
        Sized(s, d).(pieces := s.pieces + [Piece(s.start, |key.text| - s.start, d.w)], line := s.line + d.w)
      else s;
    e.(width := Max(e.line, e.width))
  }

  /** The measurement of a text from scratch. */
  function Fresh(m: Measurer, key: Key): Scan {
    Finish(m, key, ScanTo(m, key, |key.text|))
  }

  // The words tile the text ----------------------------------------------------------------------

  /** The text that a list of words stands for: an empty word is a line break. */
  function Render(text: string, ps: seq<Piece>): string {
    if ps == [] then ""
    else
      var p := ps[|ps| - 1];
      Render(text, ps[..|ps| - 1])
        + if p.length == 0 then "\n" else if p.start + p.length <= |text| then text[p.start..p.start + p.length] else ""
  }

  lemma RenderOne(text: string, ps: seq<Piece>, p: Piece)
    ensures Render(text, ps + [p]) == Render(text, ps)
      + if p.length == 0 then "\n" else if p.start + p.length <= |text| then text[p.start..p.start + p.length] else ""
  {
    assert (ps + [p])[..|ps|] == ps;
  }

  /** A word lies within the text and no line break lies within the word. */
  predicate OneLine(text: string, p: Piece) {
    p.start + p.length <= |text| && forall i :: p.start <= i < p.start + p.length ==> text[i] != '\n'
  }

  /** The words so far stand for everything in front of the current word, which has no break in it yet. */
  ghost predicate Tiled(text: string, s: Scan, end: nat)
    requires end <= |text|
  {
    && s.start <= end && Render(text, s.pieces) == text[..s.start]
    && (forall i :: s.start <= i < end ==> text[i] != ' ' && text[i] != '\n')
    && (forall p :: p in s.pieces ==> OneLine(text, p))
  }

  /** Everything up to `end` becomes a word. */
  lemma AddWord(text: string, ps: seq<Piece>, p: Piece)
    requires p.length > 0 && OneLine(text, p) && Render(text, ps) == text[..p.start]
    requires forall q :: q in ps ==> OneLine(text, q)
    ensures Render(text, ps + [p]) == text[..p.start + p.length]
    ensures forall q :: q in ps + [p] ==> OneLine(text, q)
  {
    hide OneLine, Render;
    RenderOne(text, ps, p);
    assert p.start + p.length <= |text| by { InText(text, p); }
    assert text[..p.start + p.length] == text[..p.start] + text[p.start..p.start + p.length];
  }

  lemma InText(text: string, p: Piece)
    requires OneLine(text, p)
    ensures p.start + p.length <= |text|
  {
  }

  lemma AddBreak(text: string, ps: seq<Piece>, end: nat)
    requires end < |text| && text[end] == '\n' && Render(text, ps) == text[..end] && forall q :: q in ps ==>
      OneLine(text, q)
    ensures Render(text, ps + [Piece(end + 1, 0, 0.0)]) == text[..end + 1]
    ensures forall q :: q in ps + [Piece(end + 1, 0, 0.0)] ==> OneLine(text, q)
  {
    hide Render;
    RenderOne(text, ps, Piece(end + 1, 0, 0.0));
    assert text[..end + 1] == text[..end] + "\n";
    assert OneLine(text, Piece(end + 1, 0, 0.0));
  }

  lemma TakeTiles(m: Measurer, key: Key, s: Scan, end: nat)
    requires end < |key.text| && Tiled(key.text, s, end)
    ensures Tiled(key.text, TakeChar(m, key, s, end), end + 1)
  {
    hide Render;
    var t, w := key.text, m(key.text[s.start..end], key.config).w;
    if t[end] == ' ' {
      AddWord(t, s.pieces, Piece(s.start, end - s.start + 1, w + SpaceWidth(m, key)));
    } else if t[end] == '\n' {
      if end > s.start {
        AddWord(t, s.pieces, Piece(s.start, end - s.start, w));
        AddBreak(t, s.pieces + [Piece(s.start, end - s.start, w)], end);
      } else {
        assert s.pieces + [] == s.pieces;
        AddBreak(t, s.pieces, end);
      }
    }
  }

  lemma {:induction false} ScanTiles(m: Measurer, key: Key, end: nat)
    requires end <= |key.text|
    ensures Tiled(key.text, ScanTo(m, key, end), end)
  {
    hide TakeChar, OneLine;
    if end > 0 {
      ScanTiles(m, key, end - 1);
      TakeTiles(m, key, ScanTo(m, key, end - 1), end - 1);
    }
  }

  /** Read in order, the words give back exactly the text, and no word crosses a line break. */
  lemma WordsTile(m: Measurer, key: Key)
    ensures Render(key.text, Fresh(m, key).pieces) == key.text
    ensures forall p :: p in Fresh(m, key).pieces ==> OneLine(key.text, p)
  {
    hide Render, ScanTo;
    var t, s := key.text, ScanTo(m, key, |key.text|);
    ScanTiles(m, key, |t|);
    if s.start < |t| {
      AddWord(t, s.pieces, Piece(s.start, |t| - s.start, m(t[s.start..], key.config).w));
    }
    assert t[..|t|] == t;
  }

  // The measured width is that of the widest line ------------------------------------------------

  /** The widths of the words after the last line break. */
  function LastLine(ps: seq<Piece>): real {
    if ps == [] || ps[|ps| - 1].length == 0 then 0.0 else LastLine(ps[..|ps| - 1]) + ps[|ps| - 1].width
  }

  /** No prefix of a line in the list is wider than this, and some line is as wide, if widths are not negative. */
  function WidestLine(ps: seq<Piece>): real {
    if ps == [] then 0.0 else Max(WidestLine(ps[..|ps| - 1]), LastLine(ps))
  }

  /** No string has a negative width, and the empty string has none. */
  ghost predicate Sensible(m: Measurer) {
    forall s, c :: m(s, c).w >= 0.0 && m("", c).w == 0.0
  }

  lemma LineOne(ps: seq<Piece>, p: Piece)
    ensures LastLine(ps + [p]) == if p.length == 0 then 0.0 else LastLine(ps) + p.width
    ensures WidestLine(ps + [p]) == Max(WidestLine(ps), LastLine(ps + [p]))
  {
    assert (ps + [p])[..|ps|] == ps;
  }

  ghost predicate WidthOk(s: Scan) {
    s.line == LastLine(s.pieces) && s.width <= WidestLine(s.pieces) == Max(s.width, s.line) && s.line >= 0.0
  }

  lemma WordWidth(s: Scan, p: Piece)
    requires WidthOk(s) && p.length > 0 && p.width >= 0.0
    ensures WidthOk(s.(pieces := s.pieces + [p], line := s.line + p.width))
  {
    LineOne(s.pieces, p);
  }

  lemma BreakWidth(s: Scan, p: Piece)
    requires WidthOk(s) && p.length == 0
    ensures WidthOk(s.(pieces := s.pieces + [p], width := Max(s.line, s.width), line := 0.0))
  {
    LineOne(s.pieces, p);
  }

  lemma TakeWidth(m: Measurer, key: Key, s: Scan, end: nat)
    requires s.start <= end < |key.text| && WidthOk(s) && Sensible(m)
    ensures WidthOk(TakeChar(m, key, s, end))
  {
    hide LastLine, WidestLine;
    var t, w := key.text, m(key.text[s.start..end], key.config).w;
    if t[end] == ' ' {
      WordWidth(s, Piece(s.start, end - s.start + 1, w + SpaceWidth(m, key)));
    } else if t[end] == '\n' {
      if end > s.start {
        var word := Piece(s.start, end - s.start, w);
        WordWidth(s, word);
        BreakWidth(s.(pieces := s.pieces + [word], line := s.line + w), Piece(end + 1, 0, 0.0));
      } else {
        assert t[s.start..end] == "" && s.pieces + [] == s.pieces;
        BreakWidth(s, Piece(end + 1, 0, 0.0));
      }
    }
  }

  lemma {:induction false} ScanWidth(m: Measurer, key: Key, end: nat)
    requires end <= |key.text| && Sensible(m)
    ensures WidthOk(ScanTo(m, key, end))
  {
    if end > 0 {
      ScanWidth(m, key, end - 1);
      TakeWidth(m, key, ScanTo(m, key, end - 1), end - 1);
    }
  }

  /** With a sensible measurer the measured width is that of the widest line. */
  lemma WidthIsWidestLine(m: Measurer, key: Key)
    requires Sensible(m)
    ensures var f := Fresh(m, key); f.width == WidestLine(f.pieces)
  {
    hide LastLine, WidestLine, ScanTo;
    var t, s := key.text, ScanTo(m, key, |key.text|);
    ScanWidth(m, key, |t|);
    if s.start < |t| {
      WordWidth(s, Piece(s.start, |t| - s.start, m(t[s.start..], key.config).w));
    }
  }

  // What is measured ------------------------------------------------------------------------------

  predicate IsBreak(c: char) {
    c == ' ' || c == '\n'
  }

  /** The characters between two breaks; behind the last break there is one only if characters are left. */
  predicate Stretch(text: string, a: int, b: int) {
    && 0 <= a <= b <= |text| && (a == 0 || IsBreak(text[a - 1])) && (if b < |text| then IsBreak(text[b]) else a < b)
    && forall i :: a <= i < b ==> !IsBreak(text[i])
  }

  /** What the measurer says of a part of the text. */
  function Part(m: Measurer, key: Key, a: int, b: int): Dim
    requires 0 <= a <= b <= |key.text|
  {
    m(key.text[a..b], key.config)
  }

  /**
   * A word is a stretch, with the space behind it if there is one, and is as wide as the stretch and the space
   * are measured; a line break stands behind its newline and has no width.
   */
  ghost predicate TrueToSize(m: Measurer, key: Key, p: Piece) {
    var t, end := key.text, p.start + p.length;
    && end <= |t|
    && if p.length == 0 then
         p.start > 0 && t[p.start - 1] == '\n' && p.width == 0.0
       else if t[end - 1] == ' ' then
         Stretch(t, p.start, end - 1) && p.width == m(t[p.start..end - 1], key.config).w + m(" ", key.config).w
       else
         Stretch(t, p.start, end) && p.width == m(t[p.start..end], key.config).w
  }

  /** `w` and `h` are the largest width and height of the stretches that end in front of `end`. */
  ghost predicate Largest(m: Measurer, key: Key, end: nat, w: real, h: real) {
    && w >= 0.0 && h >= 0.0
    && (forall a, b :: Stretch(key.text, a, b) && b < end ==> Part(m, key, a, b).w <= w && Part(m, key, a, b).h <= h)
    && (w == 0.0 || exists a, b :: Stretch(key.text, a, b) && b < end && Part(m, key, a, b).w == w)
    && (h == 0.0 || exists a, b :: Stretch(key.text, a, b) && b < end && Part(m, key, a, b).h == h)
  }

  ghost predicate Surveyed(m: Measurer, key: Key, s: Scan, end: nat)
    requires end <= |key.text|
  {
    && s.start <= end && (s.start == 0 || IsBreak(key.text[s.start - 1]))
    && (forall i :: s.start <= i < end ==> !IsBreak(key.text[i]))
    && (forall p :: p in s.pieces ==> TrueToSize(m, key, p))
    && Largest(m, key, end, s.minWidth, s.height)
    && (s.newlines <==> '\n' in key.text[..end])
  }

  /** Where a stretch ends says where it begins. */
  lemma StretchStart(text: string, a: int, c: int, b: int)
    requires Stretch(text, a, b) && Stretch(text, c, b)
    ensures a == c
  {
  }

  /** A character within a stretch ends none. */
  lemma LargestPast(m: Measurer, key: Key, end: nat, w: real, h: real)
    requires Largest(m, key, end, w, h) && end < |key.text| && !IsBreak(key.text[end])
    ensures Largest(m, key, end + 1, w, h)
  {
  }

  lemma LargestNext(m: Measurer, key: Key, a: nat, end: nat, s: Scan)
    requires Stretch(key.text, a, end) && Largest(m, key, end, s.minWidth, s.height)
    ensures var r := Sized(s, Part(m, key, a, end)); Largest(m, key, end + 1, r.minWidth, r.height)
  {
    var r := Sized(s, Part(m, key, a, end));
    forall c, b | Stretch(key.text, c, b) && b < end + 1
      ensures Part(m, key, c, b).w <= r.minWidth && Part(m, key, c, b).h <= r.height
    {
      if b == end {
        StretchStart(key.text, a, c, b);
      }
    }
  }

  lemma WordSurveyed(m: Measurer, key: Key, s: Scan, end: nat)
    requires end < |key.text| && IsBreak(key.text[end]) && Surveyed(m, key, s, end)
    ensures var r := TakeChar(m, key, s, end);
      && r.start == end + 1 && Largest(m, key, end + 1, r.minWidth, r.height)
      && (forall p :: p in r.pieces ==> TrueToSize(m, key, p))
      && (r.newlines <==> s.newlines || key.text[end] == '\n')
  {
    hide Largest;
    assert Stretch(key.text, s.start, end);
    LargestNext(m, key, s.start, end, s);
  }

  lemma TakeSurveyed(m: Measurer, key: Key, s: Scan, end: nat)
    requires end < |key.text| && Surveyed(m, key, s, end)
    ensures Surveyed(m, key, TakeChar(m, key, s, end), end + 1)
  {
    hide Largest, TrueToSize, TakeSpace, TakeNewline;
    assert key.text[..end + 1] == key.text[..end] + [key.text[end]];
    if IsBreak(key.text[end]) {
      hide TakeChar;
      WordSurveyed(m, key, s, end);
    } else {
      LargestPast(m, key, end, s.minWidth, s.height);
    }
  }

  lemma {:induction false} ScanSurveyed(m: Measurer, key: Key, end: nat)
    requires end <= |key.text|
    ensures Surveyed(m, key, ScanTo(m, key, end), end)
  {
    if end > 0 {
      hide TakeChar, Surveyed;
      ScanSurveyed(m, key, end - 1);
      TakeSurveyed(m, key, ScanTo(m, key, end - 1), end - 1);
    }
  }

  /** Behind the last break the text is at its end, and no further stretch ends there. */
  lemma LargestAtEnd(m: Measurer, key: Key, w: real, h: real)
    requires Largest(m, key, |key.text|, w, h) && (key.text == [] || IsBreak(key.text[|key.text| - 1]))
    ensures Largest(m, key, |key.text| + 1, w, h)
  {
  }

  lemma FreshSurveyed(m: Measurer, key: Key)
    ensures var f := Fresh(m, key);
      && (forall p :: p in f.pieces ==> TrueToSize(m, key, p))
      && Largest(m, key, |key.text| + 1, f.minWidth, f.height)
      && (f.newlines <==> '\n' in key.text)
  {
    hide Largest, ScanTo;
    var t, s := key.text, ScanTo(m, key, |key.text|);
    ScanSurveyed(m, key, |t|);
    assert t[..|t|] == t;
    if s.start < |t| {
      assert t[s.start..] == t[s.start..|t|];
      assert Stretch(t, s.start, |t|);
      LargestNext(m, key, s.start, |t|, s);
    } else {
      LargestAtEnd(m, key, s.minWidth, s.height);
    }
  }

  /**
   * A measurement takes from the measurer what it should: every word is as wide as its stretch and its space,
   * the least width and the height are the largest of all stretches, and the newline mark is right.
   */
  lemma FreshMeasures(m: Measurer, key: Key)
    ensures var f, t := Fresh(m, key), key.text;
      && (forall p :: p in f.pieces ==> TrueToSize(m, key, p))
      && (forall a, b :: Stretch(t, a, b) ==> Part(m, key, a, b).w <= f.minWidth && Part(m, key, a, b).h <= f.height)
      && (f.minWidth == 0.0 || exists a, b :: Stretch(t, a, b) && Part(m, key, a, b).w == f.minWidth)
      && (f.height == 0.0 || exists a, b :: Stretch(t, a, b) && Part(m, key, a, b).h == f.height)
      && f.minWidth >= 0.0 && f.height >= 0.0
      && (f.newlines <==> '\n' in t)
  {
    hide Fresh, TrueToSize;
    FreshSurveyed(m, key);
  }
}
