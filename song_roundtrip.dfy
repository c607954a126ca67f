/** Reading back what `SongSerializer::serialize` writes: every serialized
    line is accepted by `SerialSongParser::parseCommand`, and replaying the
    lines of a song into a fresh `Song()` restores every field the serializer
    writes. */
module SongRoundTrip {
  import opened CInt
  import opened ArduinoString
  import opened SharedStrings
  import opened SongModel
  import opened SongParser
  import opened SongParserFacts
  import opened SongSerializer

  // ================================================================ replay

  predicate AllWellIndexed(lines: seq<string>)
  {
    forall k :: 0 <= k < |lines| ==> WellIndexed(lines[k])
  }

  /** The song after `parseCommand` has been called on each line in order. */
  function Replay(song: Song, lines: seq<string>): (r: Song)
    requires ValidSong(song) && AllWellIndexed(lines)
    ensures ValidSong(r)
    decreases |lines|
  {
    if lines == [] then song
    else
      var before := Replay(song, lines[..|lines| - 1]);
      ParseOutcome(before, lines[|lines| - 1]);
      ParseCommandSpec(before, lines[|lines| - 1]).song
  }

  lemma {:induction false} ReplayAppend(song: Song, a: seq<string>, b: seq<string>)
    requires ValidSong(song) && AllWellIndexed(a) && AllWellIndexed(b)
    ensures AllWellIndexed(a + b)
    ensures Replay(song, a + b) == Replay(Replay(song, a), b)
    decreases |b|
  {
    if b == [] {
      assert a + b == a;
    } else {
      var b' := b[..|b| - 1];
      assert (a + b)[..|a + b| - 1] == a + b';
      ReplayAppend(song, a, b');
    }
  }

  lemma ReplayOne(song: Song, l: string)
    requires ValidSong(song) && WellIndexed(l)
    ensures AllWellIndexed([l]) && Replay(song, [l]) == ParseCommandSpec(song, l).song
  {
    assert [l][..0] == [];
  }

  // ================================================================ the text of a line

  /** A module name or path: no `:` or `=`, no surrounding white space. */
  predicate Field(s: string) { ':' !in s && '=' !in s && Unpadded(s) }

  /** A value text: a nonempty field. */
  predicate Value(s: string) { Field(s) && s != [] }

  lemma NumberValue(n: int)
    ensures Value(IntString(n)) && ' ' !in IntString(n) && '.' !in IntString(n)
  {
    IntStringShape(n);
  }

  /** Where the part index ends, the line is not a keyword or a comment. */
  lemma NotSkipped(l: string, i: nat)
    requires |l| > 0 && l[0] == IntString(i)[0]
    ensures l != "init" && l != "apply" && IndexOf(l, '#') != 0
  {
    IntStringShape(i);
    assert IsDigit(l[0]);
  }

  lemma IndexValue(i: nat)
    ensures ToInt(IntString(i)) == i
  {
    ToIntIntString(i, []);
    assert IntString(i) + [] == IntString(i);
  }

  /** `<a>=<b>` with no `=` in `a`: the text before and after the first `=`. */
  lemma AroundEquals(a: string, b: string)
    requires '=' !in a && Unpadded(a) && Unpadded(b) && b != []
    ensures var t := a + ['='] + b;
            IndexOf(t, '=') == |a| &&
            Trim(SubstringTo(t, IndexOf(t, '='))) == a &&
            Trim(SubstringFrom(t, IndexOf(t, '=') + 1)) == b
  {
    var t := a + ['='] + b;
    IndexOfSplit(a, '=', b);
    assert t[..|a|] == a && t[|a| + 1..] == b;
    TrimUnpadded(a);
    TrimUnpadded(b);
  }

  /** The text of a part index: digits, so not white space, `#`, `:` or `=`. */
  predicate Index(p: string) { Value(p) && IsDigit(p[0]) }

  lemma IndexText(i: nat)
    ensures Index(IntString(i)) && ToInt(IntString(i)) == i
  {
    NumberValue(i);
    IntStringShape(i);
    IndexValue(i);
  }

  /** A line that starts with an index and ends with a value is its own trim
      and is neither a keyword nor a comment. */
  lemma LineEnds(p: string, l: string, v: string)
    requires Index(p) && |l| > |p| && l[..|p|] == p
    requires Value(v) && |l| >= |v| && l[|l| - |v|..] == v
    ensures Trim(l) == l && l != "init" && l != "apply" && IndexOf(l, '#') != 0
  {
    assert l[0] == p[0];
    assert l[|l| - 1] == v[|v| - 1];
    TrimUnpadded(l);
  }

  /** How `parseCommand` reads a line whose trimmed text `c` has three
      `:`-separated fields. The line and its trimmed text are kept apart so
      that the solver does not unfold `Trim` on its own result. */
  lemma TokenizeThree(command: string, c: string, p: string, m: string, tail: string)
    requires Trim(command) == c && c != "init" && c != "apply" && IndexOf(c, '#') != 0
    requires IndexOf(c, '=') != -1 && Split(c, ':') == [p, m, tail]
    ensures var t := Tokenize(command); var pos := IndexOf(tail, '=');
            t.Routed? && t.partIndex == ToInt(p) && t.moduleName == Trim(m) &&
            t.path == Trim(SubstringTo(tail, pos)) && t.values == Trim(SubstringFrom(tail, pos + 1))
  {
  }

  lemma TokenizeTwo(command: string, c: string, p: string, tail: string)
    requires Trim(command) == c && c != "init" && c != "apply" && IndexOf(c, '#') != 0
    requires IndexOf(c, '=') != -1 && Split(c, ':') == [p, tail]
    ensures var t := Tokenize(command); var pos := IndexOf(tail, '=');
            t.Routed? && t.partIndex == ToInt(p) && t.moduleName == Trim(SubstringTo(tail, pos)) &&
            t.path == "" && t.values == Trim(SubstringFrom(tail, pos + 1))
  {
  }

  lemma TokenizeOne(command: string, c: string)
    requires Trim(command) == c && c != "init" && c != "apply" && IndexOf(c, '#') != 0
    requires IndexOf(c, '=') != -1 && Split(c, ':') == [c]
    ensures Tokenize(command) == Routed(ToInt(c), "song", "", Trim(SubstringFrom(c, IndexOf(c, '=') + 1)))
  {
  }

  /** The three `:` fields of `<p>:<m>:<path>=<v>`. */
  lemma ThreeFieldSplit(p: string, m: string, path: string, v: string)
    requires Index(p) && Field(m) && Field(path) && Value(v)
    ensures var l := p + ":" + m + ":" + path + "=" + v;
            Split(l, ':') == [p, m, path + "=" + v] && IndexOf(l, '=') != -1
  {
    var tail := path + ['='] + v;
    var mid := m + [':'] + tail;
    var l := p + ":" + m + ":" + path + "=" + v;
    assert l == p + [':'] + mid;
    assert tail == path + "=" + v;
    assert l[|p| + 1 + |m| + 1 + |path|] == '=';
    assert ':' !in tail;
    SplitFree(p, ':');
    SplitFree(m, ':');
    SplitFree(tail, ':');
    SplitAround(m, ':', tail);
    SplitAround(p, ':', mid);
  }

  lemma TwoFieldSplit(p: string, m: string, v: string)
    requires Index(p) && Field(m) && Value(v)
    ensures var l := p + ":" + m + "=" + v;
            Split(l, ':') == [p, m + "=" + v] && IndexOf(l, '=') != -1
  {
    var tail := m + ['='] + v;
    var l := p + ":" + m + "=" + v;
    assert l == p + [':'] + tail;
    assert tail == m + "=" + v;
    assert l[|p| + 1 + |m|] == '=';
    assert ':' !in tail;
    SplitFree(p, ':');
    SplitFree(tail, ':');
    SplitAround(p, ':', tail);
  }

  /** Any line `<p>...<v>` is its own trim and is not a keyword or a comment. */
  lemma LineText(p: string, rest: string, v: string)
    requires Index(p) && Value(v)
    ensures var l := p + rest + v;
            Trim(l) == l && l != "init" && l != "apply" && IndexOf(l, '#') != 0
  {
    var l := p + rest + v;
    assert l[..|p|] == p && l[|l| - |v|..] == v;
    LineEnds(p, l, v);
  }

  /** `<p>:<m>:<path>=<v>` is routed to module `m` with `path` and `v`. */
  lemma TokenizeFields3(p: string, m: string, path: string, v: string)
    requires Index(p) && Field(m) && Field(path) && Value(v)
    ensures Tokenize(p + ":" + m + ":" + path + "=" + v) == Routed(ToInt(p), m, path, v)
  {
    var l := p + ":" + m + ":" + path + "=" + v;
    ThreeFieldSplit(p, m, path, v);
    LineText3(p, m, path, v);
    TrimUnpadded(m);
    AroundEquals(path, v);
    var tail := path + "=" + v;
    var pos := IndexOf(tail, '=');
    assert Trim(SubstringTo(tail, pos)) == path && Trim(SubstringFrom(tail, pos + 1)) == v;
    TokenizeThree(l, l, p, m, tail);
    var t := Tokenize(l);
    assert t == Routed(t.partIndex, t.moduleName, t.path, t.values);
  }

  lemma LineText3(p: string, m: string, path: string, v: string)
    requires Index(p) && Value(v)
    ensures var l := p + ":" + m + ":" + path + "=" + v;
            Trim(l) == l && l != "init" && l != "apply" && IndexOf(l, '#') != 0
  {
    LineText(p, ":" + m + ":" + path + "=", v);
    assert p + (":" + m + ":" + path + "=") + v == p + ":" + m + ":" + path + "=" + v;
  }

  /** `<p>:<m>=<v>` is routed to module `m` with an empty path. */
  lemma TokenizeFields2(p: string, m: string, v: string)
    requires Index(p) && Field(m) && Value(v)
    ensures Tokenize(p + ":" + m + "=" + v) == Routed(ToInt(p), m, "", v)
  {
    var l := p + ":" + m + "=" + v;
    TwoFieldSplit(p, m, v);
    LineText2(p, m, v);
    AroundEquals(m, v);
    var tail := m + "=" + v;
    var pos := IndexOf(tail, '=');
    assert Trim(SubstringTo(tail, pos)) == m && Trim(SubstringFrom(tail, pos + 1)) == v;
    TokenizeTwo(l, l, p, tail);
    var t := Tokenize(l);
    assert t == Routed(t.partIndex, t.moduleName, t.path, t.values);
  }

  lemma LineText2(p: string, m: string, v: string)
    requires Index(p) && Value(v)
    ensures var l := p + ":" + m + "=" + v;
            Trim(l) == l && l != "init" && l != "apply" && IndexOf(l, '#') != 0
  {
    LineText(p, ":" + m + "=", v);
    assert p + (":" + m + "=") + v == p + ":" + m + "=" + v;
  }

  /** `<p>=<v>` is routed to the song programmer. */
  lemma TokenizeFields1(p: string, v: string)
    requires Index(p) && Value(v)
    ensures Tokenize(p + "=" + v) == Routed(ToInt(p + "=" + v), "song", "", v)
  {
    var l := p + "=" + v;
    assert Split(l, ':') == [l] by {
      assert l == p + ['='] + v;
      assert ':' !in l;
      SplitFree(l, ':');
    }
    assert IndexOf(l, '=') == |p| && Trim(SubstringFrom(l, |p| + 1)) == v by {
      assert l == p + ['='] + v;
      AroundEquals(p, v);
    }
    LineText(p, "=", v);
    TokenizeOne(l, l);
  }

  lemma TokenizeLine3(i: nat, m: string, path: string, v: string)
    requires Field(m) && Field(path) && Value(v)
    ensures Tokenize(Line3(i, m, path, v)) == Routed(i, m, path, v)
  {
    IndexText(i);
    TokenizeFields3(IntString(i), m, path, v);
  }

  lemma TokenizeLine2(i: nat, m: string, v: string)
    requires Field(m) && Value(v)
    ensures Tokenize(Line2(i, m, v)) == Routed(i, m, "", v)
  {
    IndexText(i);
    TokenizeFields2(IntString(i), m, v);
  }

  lemma IndexBeforeEquals(i: nat, v: string)
    ensures ToInt(IntString(i) + "=" + v) == i
  {
    IntStringShape(i);
    ToIntIntString(i, "=" + v);
    assert IntString(i) + "=" + v == IntString(i) + ("=" + v);
  }

  lemma TokenizeLine1(i: nat, v: string)
    requires Value(v)
    ensures Tokenize(Line1(i, v)) == Routed(i, "song", "", v)
  {
    IndexText(i);
    TokenizeFields1(IntString(i), v);
    IndexBeforeEquals(i, v);
  }

  /** `a b c` splits on spaces into its three numbers. */
  lemma ThreeNumbers(a: int, b: int, c: int)
    ensures var v := IntString(a) + " " + IntString(b) + " " + IntString(c);
            Value(v) && Split(v, ' ') == [IntString(a), IntString(b), IntString(c)]
  {
    var x, y, z := IntString(a), IntString(b), IntString(c);
    var v := x + " " + y + " " + z;
    var yz := y + [' '] + z;
    assert v == x + [' '] + yz;
    assert Value(v) by {
      NumberValue(a);
      NumberValue(c);
      NumberValue(b);
      assert v[0] == x[0] && v[|v| - 1] == z[|z| - 1];
    }
    assert Split(v, ' ') == [x, y, z] by {
      NumberValue(a);
      NumberValue(b);
      NumberValue(c);
      SplitFree(x, ' ');
      SplitFree(y, ' ');
      SplitFree(z, ' ');
      SplitAround(y, ' ', z);
      SplitAround(x, ' ', yz);
    }
  }

  /** `<n>.<op>` names channel `n` and function `op`. */
  lemma DottedPath(n: int, op: string)
    requires '.' !in op && Field(op) && op != []
    ensures var path := IntString(n) + "." + op;
            Field(path) && Split(path, '.') == [IntString(n), op] &&
            SeqTarget(path) == Target(n, op) && SamplerTarget(path) == Target(n, op)
  {
    var p := IntString(n);
    var path := p + "." + op;
    assert path == p + ['.'] + op;
    assert Field(path) by {
      NumberValue(n);
      assert path[0] == p[0] && path[|path| - 1] == op[|op| - 1];
    }
    assert Split(path, '.') == [p, op] by {
      NumberValue(n);
      SplitFree(p, '.');
      SplitFree(op, '.');
      SplitAround(p, '.', op);
    }
    assert ToInt(p) == n by {
      ToIntIntString(n, []);
      assert p + [] == p;
    }
  }

  lemma PlainPath(n: int)
    ensures Field(IntString(n)) && SeqTarget(IntString(n)) == Target(n, "")
  {
    NumberValue(n);
    assert Split(IntString(n), '.') == [IntString(n)] by {
      SplitFree(IntString(n), '.');
    }
    assert ToInt(IntString(n)) == n by {
      ToIntIntString(n, []);
      assert IntString(n) + [] == IntString(n);
    }
  }

  // ================================================================ step tokens

  lemma StepTokenText(v: u16)
    ensures var t := StepToken(v);
            Value(t) && ' ' !in t && StepValue(t) == v
  {
    var t := StepToken(v);
    assert StepValue(t) == v by {
      StepTokenRoundTrip(v);
    }
    if v != 0 {
      var h := PaddedHex(v);
      PaddedHexValue(v);
      assert t == "0x" + h;
      forall k | 0 <= k < |t|
        ensures t[k] != ' ' && t[k] != ':' && t[k] != '='
      {
        if k >= 2 {
          assert t[k] == h[k - 2];
        }
      }
      assert IsHexDigit(t[5]) by { assert t[5] == h[3]; }
    }
  }

  /** Four tokens joined by spaces. */
  lemma SpacedFour(t: seq<string>)
    requires |t| == 4
    ensures Spaced(t, 4) == t[0] + " " + t[1] + " " + t[2] + " " + t[3]
  {
    assert Spaced(t, 1) == t[0] + " " by {
      assert Spaced(t, 0) == "" && "" + t[0] == t[0];
    }
    assert Spaced(t, 2) == t[0] + " " + t[1] + " ";
    assert Spaced(t, 3) == t[0] + " " + t[1] + " " + t[2] + " ";
    var x := t[0] + " " + t[1] + " " + t[2] + " " + t[3];
    assert x + "" == x;
  }

  lemma FourSplit(t0: string, t1: string, t2: string, t3: string)
    requires ' ' !in t0 && ' ' !in t1 && ' ' !in t2 && ' ' !in t3
    ensures Split(t0 + " " + t1 + " " + t2 + " " + t3, ' ') == [t0, t1, t2, t3]
  {
    SplitFree(t0, ' ');
    SplitFree(t1, ' ');
    SplitFree(t2, ' ');
    SplitFree(t3, ' ');
    var a := t0 + " " + t1;
    var b := a + " " + t2;
    SplitAround(t0, ' ', t1);
    SplitAround(a, ' ', t2);
    SplitAround(b, ' ', t3);
  }

  /** Two values joined by a space are a value. */
  lemma SpaceJoinValue(a: string, b: string)
    requires Value(a) && Value(b)
    ensures Value(a + " " + b)
  {
    var v := a + " " + b;
    assert v[0] == a[0] && v[|v| - 1] == b[|b| - 1];
    assert forall k :: 0 <= k < |v| ==> v[k] == ' ' || v[k] in a || v[k] in b;
  }

  /** Four space-free values joined by spaces are a value that splits back
      into them. */
  lemma FourJoined(t0: string, t1: string, t2: string, t3: string)
    requires Value(t0) && Value(t1) && Value(t2) && Value(t3)
    requires ' ' !in t0 && ' ' !in t1 && ' ' !in t2 && ' ' !in t3
    ensures Value(t0 + " " + t1 + " " + t2 + " " + t3)
    ensures Split(t0 + " " + t1 + " " + t2 + " " + t3, ' ') == [t0, t1, t2, t3]
  {
    SpaceJoinValue(t0, t1);
    SpaceJoinValue(t0 + " " + t1, t2);
    SpaceJoinValue(t0 + " " + t1 + " " + t2, t3);
    FourSplit(t0, t1, t2, t3);
  }

  /** Four space-free tokens joined by spaces split back into the tokens. */
  lemma SpacedSplit(t: seq<string>)
    requires |t| == 4 && forall k :: 0 <= k < 4 ==> Value(t[k]) && ' ' !in t[k]
    ensures Value(Spaced(t, 4)) && Split(Spaced(t, 4), ' ') == t
  {
    SpacedFour(t);
    assert Value(t[0]) && ' ' !in t[0] && Value(t[1]) && ' ' !in t[1];
    assert Value(t[2]) && ' ' !in t[2] && Value(t[3]) && ' ' !in t[3];
    FourJoined(t[0], t[1], t[2], t[3]);
    assert [t[0], t[1], t[2], t[3]] == t;
  }

  /** The steps text of a channel splits back into one token per page, and
      each token stores its page. */
  lemma StepTokensText(page: seq<u16>)
    requires |page| == PAGES
    ensures var t := PageTokens(page);
            Value(Spaced(t, PAGES)) && Split(Spaced(t, PAGES), ' ') == t &&
            forall k :: 0 <= k < PAGES ==> StepValue(t[k]) == page[k]
  {
    var t := PageTokens(page);
    forall k | 0 <= k < PAGES
      ensures Value(t[k]) && ' ' !in t[k] && StepValue(t[k]) == page[k]
    {
      StepTokenText(page[k]);
    }
    SpacedSplit(t);
  }

  // ================================================================ the effect of each line

  /** A routed line whose sub-command succeeds replaces its part by the
      sub-command's result. */
  lemma RoutedEffect(song: Song, l: string, i: nat, m: string, path: string, v: string)
    requires ValidSong(song) && Tokenize(l) == Routed(i, m, path, v) && i < CHANNELS
    requires ModuleIndexed(m, path, v) && RouteCommand(song.parts[i], m, path, v).ok
    ensures WellIndexed(l)
    ensures ParseCommandSpec(song, l).song == WithPart(song, i, RouteCommand(song.parts[i], m, path, v).part)
  {
    RouteFailureKeepsPart(song.parts[i], m, path, v);
  }

  /** A `<i>:<m>=<v>` line whose sub-command succeeds with part `p`. */
  lemma Line2Effect(song: Song, i: nat, m: string, v: string, p: Part)
    requires ValidSong(song) && i < CHANNELS && Field(m) && Value(v)
    requires ModuleIndexed(m, "", v) && RouteCommand(song.parts[i], m, "", v) == Outcome(p, true)
    ensures WellIndexed(Line2(i, m, v))
    ensures ParseCommandSpec(song, Line2(i, m, v)).song == WithPart(song, i, p)
  {
    TokenizeLine2(i, m, v);
    RoutedEffect(song, Line2(i, m, v), i, m, "", v);
  }

  /** A `<i>:<m>:<path>=<v>` line whose sub-command succeeds with part `p`. */
  lemma Line3Effect(song: Song, i: nat, m: string, path: string, v: string, p: Part)
    requires ValidSong(song) && i < CHANNELS && Field(m) && Field(path) && Value(v)
    requires ModuleIndexed(m, path, v) && RouteCommand(song.parts[i], m, path, v) == Outcome(p, true)
    ensures WellIndexed(Line3(i, m, path, v))
    ensures ParseCommandSpec(song, Line3(i, m, path, v)).song == WithPart(song, i, p)
  {
    TokenizeLine3(i, m, path, v);
    RoutedEffect(song, Line3(i, m, path, v), i, m, path, v);
  }

  lemma ProgrammerRoute(q: Part, part: Part)
    requires ValidPart(q) && ValidPart(part) && PartInRange(part)
    ensures var v := IntString(part.pages) + " " + IntString(part.repeats) + " " + IntString(part.chainTo);
            Value(v) && ModuleIndexed("song", "", v) &&
            RouteCommand(q, "song", "", v) == Outcome(q.(pages := part.pages, repeats := part.repeats, chainTo := part.chainTo), true)
  {
    ThreeNumbers(part.pages, part.repeats, part.chainTo);
    TryGetIntIntString(part.pages);
    TryGetIntIntString(part.repeats);
    TryGetIntIntString(part.chainTo);
  }

  lemma ProgrammerLineEffect(song: Song, i: nat, part: Part)
    requires ValidSong(song) && i < CHANNELS && ValidPart(part) && PartInRange(part)
    ensures WellIndexed(ProgrammerLine(i, part))
    ensures var q := song.parts[i];
            ParseCommandSpec(song, ProgrammerLine(i, part)).song ==
              WithPart(song, i, q.(pages := part.pages, repeats := part.repeats, chainTo := part.chainTo))
  {
    var v := IntString(part.pages) + " " + IntString(part.repeats) + " " + IntString(part.chainTo);
    ProgrammerRoute(song.parts[i], part);
    TokenizeLine1(i, v);
    RoutedEffect(song, ProgrammerLine(i, part), i, "song", "", v);
  }

  lemma TempoLineEffect(song: Song, i: nat, part: Part)
    requires ValidSong(song) && i < CHANNELS
    ensures WellIndexed(TempoLine(i, part))
    ensures var q := song.parts[i];
            ParseCommandSpec(song, TempoLine(i, part)).song == WithPart(song, i, q.(tempo := q.tempo.(bpm := part.tempo.bpm)))
  {
    var q := song.parts[i];
    var v := IntString(part.tempo.bpm);
    NumberValue(part.tempo.bpm);
    TryGetIntIntString(part.tempo.bpm);
    Line2Effect(song, i, "tempo", v, q.(tempo := q.tempo.(bpm := part.tempo.bpm)));
  }

  lemma BankLineEffect(song: Song, i: nat, part: Part)
    requires ValidSong(song) && i < CHANNELS && part.sampler.bank <= 99
    ensures WellIndexed(BankLine(i, part))
    ensures var q := song.parts[i];
            ParseCommandSpec(song, BankLine(i, part)).song == WithPart(song, i, q.(sampler := q.sampler.(bank := part.sampler.bank)))
  {
    var q := song.parts[i];
    var v := IntString(part.sampler.bank);
    NumberValue(part.sampler.bank);
    TryGetIntIntString(part.sampler.bank);
    Line2Effect(song, i, "sampler", v, q.(sampler := q.sampler.(bank := part.sampler.bank)));
  }

  lemma MixRoute(q: Part, m: nat, v: u16)
    requires ValidPart(q) && m < MIX_CHANNELS && v <= 1023
    ensures var path := IntString(m) + ".mix";
            Field(path) && ModuleIndexed("sampler", path, IntString(v)) &&
            RouteCommand(q, "sampler", path, IntString(v)) == Outcome(q.(sampler := q.sampler.(mix := q.sampler.mix[m := v])), true)
  {
    DottedPath(m, "mix");
    assert IntString(m) + "." + "mix" == IntString(m) + ".mix";
    TryGetIntIntString(v);
  }

  lemma MixLineEffect(song: Song, i: nat, m: nat, v: u16)
    requires ValidSong(song) && i < CHANNELS && m < MIX_CHANNELS && v <= 1023
    ensures WellIndexed(MixLine(i, m, v))
    ensures var q := song.parts[i];
            ParseCommandSpec(song, MixLine(i, m, v)).song == WithPart(song, i, q.(sampler := q.sampler.(mix := q.sampler.mix[m := v])))
  {
    var q := song.parts[i];
    NumberValue(v);
    MixRoute(q, m, v);
    Line3Effect(song, i, "sampler", IntString(m) + ".mix", IntString(v), q.(sampler := q.sampler.(mix := q.sampler.mix[m := v])));
  }

  /** A steps text that splits into four tokens storing `pages` sets the
      pages of channel `c` to `pages`. */
  lemma StepsTextRoute(q: Part, c: nat, t: seq<string>, pages: seq<u16>)
    requires ValidPart(q) && c < DRUM_CHANNELS && |t| == PAGES && |pages| == PAGES
    requires Split(Spaced(t, PAGES), ' ') == t
    requires forall k :: 0 <= k < PAGES ==> StepValue(t[k]) == pages[k]
    ensures var v := Spaced(t, PAGES);
            Field(IntString(c)) && ModuleIndexed("seq", IntString(c), v) &&
            RouteCommand(q, "seq", IntString(c), v) ==
              Outcome(WithChannel(q, c, q.drumSequencer.channel[c].(page := pages)), true)
  {
    PlainPath(c);
    var ch := q.drumSequencer.channel[c];
    assert StepPages(ch.page, t) == pages;
  }

  lemma StepsRoute(q: Part, c: nat, ch: DrumSequencerChannel)
    requires ValidPart(q) && c < DRUM_CHANNELS && ValidChannel(ch)
    ensures var v := Spaced(PageTokens(ch.page), PAGES);
            Value(v) && Field(IntString(c)) && ModuleIndexed("seq", IntString(c), v) &&
            RouteCommand(q, "seq", IntString(c), v) ==
              Outcome(WithChannel(q, c, q.drumSequencer.channel[c].(page := ch.page)), true)
  {
    StepTokensText(ch.page);
    StepsTextRoute(q, c, PageTokens(ch.page), ch.page);
  }

  lemma StepsLineEffect(song: Song, i: nat, c: nat, ch: DrumSequencerChannel)
    requires ValidSong(song) && i < CHANNELS && c < DRUM_CHANNELS && ValidChannel(ch)
    ensures WellIndexed(StepsLine(i, c, ch))
    ensures var q := song.parts[i];
            ParseCommandSpec(song, StepsLine(i, c, ch)).song ==
              WithPart(song, i, WithChannel(q, c, q.drumSequencer.channel[c].(page := ch.page)))
  {
    var q := song.parts[i];
    StepsRoute(q, c, ch);
    Line3Effect(song, i, "seq", IntString(c), Spaced(PageTokens(ch.page), PAGES),
                WithChannel(q, c, q.drumSequencer.channel[c].(page := ch.page)));
  }

  /** A channel function `<c>.<op>=<v>` whose channel command succeeds. */
  lemma ChannelRoute(q: Part, c: nat, op: string, v: string)
    requires ValidPart(q) && c < DRUM_CHANNELS && op in {"div", "ena", "last"} && Value(v) && ' ' !in v
    ensures var path := IntString(c) + "." + op;
            var o := ChannelCommand(q.drumSequencer.channel[c], op, [v]);
            Field(path) && ModuleIndexed("seq", path, v) &&
            RouteCommand(q, "seq", path, v) == Outcome(WithChannel(q, c, o.channel), o.ok)
  {
    DottedPath(c, op);
    SplitFree(v, ' ');
  }

  lemma DivRoute(q: Part, c: nat, ch: DrumSequencerChannel)
    requires ValidPart(q) && c < DRUM_CHANNELS && ChannelInRange(ch)
    ensures var path := IntString(c) + ".div";
            var v := IntString(ch.divider);
            Field(path) && Value(v) && ModuleIndexed("seq", path, v) &&
            RouteCommand(q, "seq", path, v) == Outcome(WithChannel(q, c, q.drumSequencer.channel[c].(divider := ch.divider)), true)
  {
    var v := IntString(ch.divider);
    NumberValue(ch.divider);
    ChannelRoute(q, c, "div", v);
    assert IntString(c) + "." + "div" == IntString(c) + ".div";
    TryGetIntIntString(ch.divider);
  }

  lemma EnaRoute(q: Part, c: nat, ch: DrumSequencerChannel)
    requires ValidPart(q) && c < DRUM_CHANNELS
    ensures var path := IntString(c) + ".ena";
            var v := if ch.enabled then "1" else "0";
            Field(path) && Value(v) && ModuleIndexed("seq", path, v) &&
            RouteCommand(q, "seq", path, v) == Outcome(WithChannel(q, c, q.drumSequencer.channel[c].(enabled := ch.enabled)), true)
  {
    var v := if ch.enabled then "1" else "0";
    assert Value(v) && ' ' !in v;
    ChannelRoute(q, c, "ena", v);
    assert IntString(c) + "." + "ena" == IntString(c) + ".ena";
  }

  lemma LastRoute(q: Part, c: nat, ch: DrumSequencerChannel)
    requires ValidPart(q) && c < DRUM_CHANNELS && ChannelInRange(ch)
    ensures var path := IntString(c) + ".last";
            var v := IntString(ch.lastStep);
            Field(path) && Value(v) && ModuleIndexed("seq", path, v) &&
            RouteCommand(q, "seq", path, v) == Outcome(WithChannel(q, c, q.drumSequencer.channel[c].(lastStep := ch.lastStep)), true)
  {
    var v := IntString(ch.lastStep);
    NumberValue(ch.lastStep);
    ChannelRoute(q, c, "last", v);
    assert IntString(c) + "." + "last" == IntString(c) + ".last";
    TryGetIntIntString(ch.lastStep);
  }

  lemma DivLineEffect(song: Song, i: nat, c: nat, ch: DrumSequencerChannel)
    requires ValidSong(song) && i < CHANNELS && c < DRUM_CHANNELS && ChannelInRange(ch)
    ensures WellIndexed(DivLine(i, c, ch))
    ensures var q := song.parts[i];
            ParseCommandSpec(song, DivLine(i, c, ch)).song ==
              WithPart(song, i, WithChannel(q, c, q.drumSequencer.channel[c].(divider := ch.divider)))
  {
    var q := song.parts[i];
    DivRoute(q, c, ch);
    Line3Effect(song, i, "seq", IntString(c) + ".div", IntString(ch.divider),
                WithChannel(q, c, q.drumSequencer.channel[c].(divider := ch.divider)));
  }

  lemma EnaLineEffect(song: Song, i: nat, c: nat, ch: DrumSequencerChannel)
    requires ValidSong(song) && i < CHANNELS && c < DRUM_CHANNELS
    ensures WellIndexed(EnaLine(i, c, ch))
    ensures var q := song.parts[i];
            ParseCommandSpec(song, EnaLine(i, c, ch)).song ==
              WithPart(song, i, WithChannel(q, c, q.drumSequencer.channel[c].(enabled := ch.enabled)))
  {
    var q := song.parts[i];
    EnaRoute(q, c, ch);
    Line3Effect(song, i, "seq", IntString(c) + ".ena", if ch.enabled then "1" else "0",
                WithChannel(q, c, q.drumSequencer.channel[c].(enabled := ch.enabled)));
  }

  lemma LastLineEffect(song: Song, i: nat, c: nat, ch: DrumSequencerChannel)
    requires ValidSong(song) && i < CHANNELS && c < DRUM_CHANNELS && ChannelInRange(ch)
    ensures WellIndexed(LastLine(i, c, ch))
    ensures var q := song.parts[i];
            ParseCommandSpec(song, LastLine(i, c, ch)).song ==
              WithPart(song, i, WithChannel(q, c, q.drumSequencer.channel[c].(lastStep := ch.lastStep)))
  {
    var q := song.parts[i];
    LastRoute(q, c, ch);
    Line3Effect(song, i, "seq", IntString(c) + ".last", IntString(ch.lastStep),
                WithChannel(q, c, q.drumSequencer.channel[c].(lastStep := ch.lastStep)));
  }

  // ================================================================ replaying blocks of lines

  lemma ReplaySnoc(song: Song, a: seq<string>, l: string)
    requires ValidSong(song) && AllWellIndexed(a) && WellIndexed(l)
    ensures AllWellIndexed(a + [l])
    ensures Replay(song, a + [l]) == ParseCommandSpec(Replay(song, a), l).song
  {
    assert (a + [l])[..|a|] == a;
  }

  /** The mix levels after the mix lines of the first `n` channels of `mix`
      have been replayed over `base`. */
  function MixResult(base: seq<u16>, mix: seq<u16>, n: nat): (r: seq<u16>)
    requires n <= |mix| == |base|
    ensures |r| == |base|
    ensures forall k :: 0 <= k < |r| ==> r[k] == if k < n && mix[k] != 0 then mix[k] else base[k]
  {
    if n == 0 then base
    else
      var prev := MixResult(base, mix, n - 1);
      if mix[n - 1] == 0 then prev else prev[n - 1 := mix[n - 1]]
  }

  /** A mix line replayed over a song whose part `i` is part `q` of the
      song with mix levels `x`. */
  lemma MixStep(song: Song, i: nat, x: seq<u16>, m: nat, v: u16)
    requires ValidSong(song) && i < CHANNELS && |x| == MIX_CHANNELS && m < MIX_CHANNELS && v <= 1023
    ensures WellIndexed(MixLine(i, m, v))
    ensures var q := song.parts[i];
            ParseCommandSpec(WithPart(song, i, q.(sampler := q.sampler.(mix := x))), MixLine(i, m, v)).song ==
              WithPart(song, i, q.(sampler := q.sampler.(mix := x[m := v])))
  {
    var q := song.parts[i];
    var q1 := q.(sampler := q.sampler.(mix := x));
    var q2 := q.(sampler := q.sampler.(mix := x[m := v]));
    var s1 := WithPart(song, i, q1);
    MixLineEffect(s1, i, m, v);
    assert s1.parts[i] == q1;
    assert q1.(sampler := q1.sampler.(mix := q1.sampler.mix[m := v])) == q2;
    WithPartTwice(song, i, q1, q2);
  }

  lemma {:induction false} MixLinesEffect(song: Song, i: nat, mix: seq<u16>, n: nat)
    requires ValidSong(song) && i < CHANNELS && |mix| == MIX_CHANNELS && n <= MIX_CHANNELS
    requires forall m :: 0 <= m < MIX_CHANNELS ==> mix[m] <= 1023
    ensures AllWellIndexed(MixLines(i, mix, n))
    ensures var q := song.parts[i];
            Replay(song, MixLines(i, mix, n)) ==
              WithPart(song, i, q.(sampler := q.sampler.(mix := MixResult(q.sampler.mix, mix, n))))
  {
    var q := song.parts[i];
    if n == 0 {
      WithPartSame(song, i);
      assert q.(sampler := q.sampler.(mix := q.sampler.mix)) == q;
    } else {
      MixLinesEffect(song, i, mix, n - 1);
      var a := MixLines(i, mix, n - 1);
      var x := MixResult(q.sampler.mix, mix, n - 1);
      if mix[n - 1] == 0 {
        assert MixLines(i, mix, n) == a + [];
        assert a + [] == a;
      } else {
        var l := MixLine(i, n - 1, mix[n - 1]);
        assert MixLines(i, mix, n) == a + [l];
        MixStep(song, i, x, n - 1, mix[n - 1]);
        ReplaySnoc(song, a, l);
      }
    }
  }

  /** Setting a channel of part `i` twice keeps only the second setting. */
  lemma ChannelAgain(song: Song, i: nat, c: nat, x: DrumSequencerChannel, y: DrumSequencerChannel)
    requires ValidSong(song) && i < CHANNELS && c < DRUM_CHANNELS && ValidChannel(x) && ValidChannel(y)
    ensures var s := WithPart(song, i, WithChannel(song.parts[i], c, x));
            s.parts[i].drumSequencer.channel[c] == x &&
            WithPart(s, i, WithChannel(s.parts[i], c, y)) == WithPart(song, i, WithChannel(song.parts[i], c, y))
  {
    WithChannelTwice(song.parts[i], c, x, y);
    WithPartTwice(song, i, WithChannel(song.parts[i], c, x), WithChannel(WithChannel(song.parts[i], c, x), c, y));
  }

  /** A line that changes channel `c` of part `i` from `x` to `y`, replayed
      after lines that set it to `x`. */
  lemma ChannelLineAfter(song: Song, i: nat, c: nat, lines: seq<string>, l: string, x: DrumSequencerChannel, y: DrumSequencerChannel)
    requires ValidSong(song) && i < CHANNELS && c < DRUM_CHANNELS && ValidChannel(x) && ValidChannel(y)
    requires AllWellIndexed(lines) && WellIndexed(l)
    requires Replay(song, lines) == WithPart(song, i, WithChannel(song.parts[i], c, x))
    requires var s := WithPart(song, i, WithChannel(song.parts[i], c, x));
             ParseCommandSpec(s, l).song == WithPart(s, i, WithChannel(s.parts[i], c, y))
    ensures AllWellIndexed(lines + [l])
    ensures Replay(song, lines + [l]) == WithPart(song, i, WithChannel(song.parts[i], c, y))
  {
    ReplaySnoc(song, lines, l);
    ChannelAgain(song, i, c, x, y);
  }

  /** The steps and divider lines of a channel set its pages and divider. */
  lemma BlockHeadEffect(song: Song, i: nat, c: nat, ch: DrumSequencerChannel)
    requires ValidSong(song) && i < CHANNELS && c < DRUM_CHANNELS && ValidChannel(ch) && ChannelInRange(ch)
    ensures var x := song.parts[i].drumSequencer.channel[c].(page := ch.page, divider := ch.divider);
            var lines := [StepsLine(i, c, ch), DivLine(i, c, ch)];
            AllWellIndexed(lines) && Replay(song, lines) == WithPart(song, i, WithChannel(song.parts[i], c, x))
  {
    var l0, l1 := StepsLine(i, c, ch), DivLine(i, c, ch);
    var q := song.parts[i];
    var x1 := q.drumSequencer.channel[c].(page := ch.page);
    var x2 := x1.(divider := ch.divider);
    var s1 := WithPart(song, i, WithChannel(q, c, x1));
    assert AllWellIndexed([l0]) && Replay(song, [l0]) == s1 by {
      StepsLineEffect(song, i, c, ch);
      ReplayOne(song, l0);
    }
    assert WellIndexed(l1) && ParseCommandSpec(s1, l1).song == WithPart(s1, i, WithChannel(s1.parts[i], c, x2)) by {
      ChannelAgain(song, i, c, x1, x2);
      DivLineEffect(s1, i, c, ch);
    }
    ChannelLineAfter(song, i, c, [l0], l1, x1, x2);
    assert [l0] + [l1] == [l0, l1];
  }

  /** The four lines of an enabled channel in range set the whole channel. */
  lemma BlockEffect(song: Song, i: nat, c: nat, ch: DrumSequencerChannel)
    requires ValidSong(song) && i < CHANNELS && c < DRUM_CHANNELS && ValidChannel(ch)
    requires ChannelInRange(ch) && ch.enabled
    ensures AllWellIndexed(ChannelBlock(i, c, ch))
    ensures Replay(song, ChannelBlock(i, c, ch)) == WithPart(song, i, WithChannel(song.parts[i], c, ch))
  {
    var l0, l1, l2, l3 := StepsLine(i, c, ch), DivLine(i, c, ch), EnaLine(i, c, ch), LastLine(i, c, ch);
    var q := song.parts[i];
    var x2 := q.drumSequencer.channel[c].(page := ch.page, divider := ch.divider);
    var x3 := x2.(enabled := ch.enabled);
    assert x3.(lastStep := ch.lastStep) == ch;
    var s2, s3 := WithPart(song, i, WithChannel(q, c, x2)), WithPart(song, i, WithChannel(q, c, x3));
    BlockHeadEffect(song, i, c, ch);
    assert WellIndexed(l2) && ParseCommandSpec(s2, l2).song == WithPart(s2, i, WithChannel(s2.parts[i], c, x3)) by {
      ChannelAgain(song, i, c, x2, x3);
      EnaLineEffect(s2, i, c, ch);
    }
    ChannelLineAfter(song, i, c, [l0, l1], l2, x2, x3);
    assert [l0, l1] + [l2] == [l0, l1, l2];
    assert WellIndexed(l3) && ParseCommandSpec(s3, l3).song == WithPart(s3, i, WithChannel(s3.parts[i], c, ch)) by {
      ChannelAgain(song, i, c, x3, ch);
      LastLineEffect(s3, i, c, ch);
    }
    ChannelLineAfter(song, i, c, [l0, l1, l2], l3, x3, ch);
    assert [l0, l1, l2] + [l3] == [l0, l1, l2, l3];
    assert ChannelBlock(i, c, ch) == [l0, l1, l2, l3];
  }

  /** The drum channels after the channel blocks of the first `n` channels of
      `d` have been replayed over `base`: enabled channels are copied whole,
      disabled ones keep `base`. */
  function ChannelResult(base: seq<DrumSequencerChannel>, d: DrumSequencer, n: nat): (r: seq<DrumSequencerChannel>)
    requires ValidDrums(d) && |base| == DRUM_CHANNELS && n <= DRUM_CHANNELS
    ensures |r| == DRUM_CHANNELS
    ensures forall c :: 0 <= c < DRUM_CHANNELS ==> r[c] == if c < n && d.channel[c].enabled then d.channel[c] else base[c]
  {
    if n == 0 then base
    else
      var prev := ChannelResult(base, d, n - 1);
      if d.channel[n - 1].enabled then prev[n - 1 := d.channel[n - 1]] else prev
  }

  lemma {:induction false} ChannelLinesEffect(song: Song, i: nat, d: DrumSequencer, n: nat)
    requires ValidSong(song) && i < CHANNELS && ValidDrums(d) && n <= DRUM_CHANNELS
    requires forall c :: 0 <= c < DRUM_CHANNELS ==> ChannelInRange(d.channel[c])
    ensures AllWellIndexed(ChannelLines(i, d, n))
    ensures var q := song.parts[i];
            var r := ChannelResult(q.drumSequencer.channel, d, n);
            ValidDrums(q.drumSequencer.(channel := r)) &&
            Replay(song, ChannelLines(i, d, n)) == WithPart(song, i, q.(drumSequencer := q.drumSequencer.(channel := r)))
  {
    var q := song.parts[i];
    if n == 0 {
      WithPartSame(song, i);
      assert q.(drumSequencer := q.drumSequencer.(channel := q.drumSequencer.channel)) == q;
    } else {
      ChannelLinesEffect(song, i, d, n - 1);
      var a := ChannelLines(i, d, n - 1);
      var q1 := q.(drumSequencer := q.drumSequencer.(channel := ChannelResult(q.drumSequencer.channel, d, n - 1)));
      var ch := d.channel[n - 1];
      if ch.enabled {
        var b := ChannelBlock(i, n - 1, ch);
        assert ChannelLines(i, d, n) == a + b;
        BlockEffect(Replay(song, a), i, n - 1, ch);
        ReplayAppend(song, a, b);
        assert WithChannel(q1, n - 1, ch) ==
               q.(drumSequencer := q.drumSequencer.(channel := ChannelResult(q.drumSequencer.channel, d, n)));
        WithPartTwice(song, i, q1, WithChannel(q1, n - 1, ch));
      } else {
        assert ChannelLines(i, d, n) == a;
      }
    }
  }

  // ================================================================ the round trip

  /** What a song file keeps of a part. A part without pages keeps only its
      programmer settings (pages, repeats, chainTo). Otherwise the tempo keeps
      only `bpm`, the chain mode is lost, a disabled drum channel comes back
      as a default channel, and the sampler is kept whole. */
  function RetainedPart(p: Part): (r: Part)
    requires ValidPart(p)
    ensures ValidPart(r)
  {
    if p.pages == 0 then DefaultPart().(pages := p.pages, repeats := p.repeats, chainTo := p.chainTo)
    else
      var d := p.drumSequencer;
      Part(p.pages, p.repeats, p.chainTo, DefaultTempo().(bpm := p.tempo.bpm),
           DrumSequencer(seq(DRUM_CHANNELS, c requires 0 <= c < DRUM_CHANNELS =>
                               if d.channel[c].enabled then d.channel[c] else DefaultChannel()), false),
           p.sampler)
  }

  function RetainedSong(s: Song): (r: Song)
    requires ValidSong(s)
    ensures ValidSong(r)
  {
    Song(seq(CHANNELS, j requires 0 <= j < CHANNELS => RetainedPart(s.parts[j])))
  }

  /** The first part of a part's lines, before the mix and channel lines. */
  lemma PartHeadEffect(song: Song, i: nat, p: Part)
    requires ValidSong(song) && i < CHANNELS && ValidPart(p) && PartInRange(p)
    ensures var h := [ProgrammerLine(i, p), TempoLine(i, p), BankLine(i, p)];
            var q := song.parts[i];
            AllWellIndexed(h) &&
            Replay(song, h) == WithPart(song, i, q.(pages := p.pages, repeats := p.repeats, chainTo := p.chainTo,
                                                    tempo := q.tempo.(bpm := p.tempo.bpm),
                                                    sampler := q.sampler.(bank := p.sampler.bank)))
  {
    var prog, t, bk := ProgrammerLine(i, p), TempoLine(i, p), BankLine(i, p);
    var q := song.parts[i];
    var q1 := q.(pages := p.pages, repeats := p.repeats, chainTo := p.chainTo);
    var q2 := q1.(tempo := q1.tempo.(bpm := p.tempo.bpm));
    ProgrammerLineEffect(song, i, p);
    ReplayOne(song, prog);
    TempoStep(song, i, q1, p);
    ReplaySnoc(song, [prog], t);
    assert [prog] + [t] == [prog, t];
    BankStep(song, i, q2, p);
    ReplaySnoc(song, [prog, t], bk);
    assert [prog, t] + [bk] == [prog, t, bk];
  }

  /** The tempo line over a song whose part `i` is `q1`. */
  lemma TempoStep(song: Song, i: nat, q1: Part, p: Part)
    requires ValidSong(song) && i < CHANNELS && ValidPart(q1)
    ensures WellIndexed(TempoLine(i, p))
    ensures ParseCommandSpec(WithPart(song, i, q1), TempoLine(i, p)).song ==
              WithPart(song, i, q1.(tempo := q1.tempo.(bpm := p.tempo.bpm)))
  {
    var s1 := WithPart(song, i, q1);
    TempoLineEffect(s1, i, p);
    assert s1.parts[i] == q1;
    WithPartTwice(song, i, q1, q1.(tempo := q1.tempo.(bpm := p.tempo.bpm)));
  }

  /** The bank line over a song whose part `i` is `q2`. */
  lemma BankStep(song: Song, i: nat, q2: Part, p: Part)
    requires ValidSong(song) && i < CHANNELS && ValidPart(q2) && p.sampler.bank <= 99
    ensures WellIndexed(BankLine(i, p))
    ensures ParseCommandSpec(WithPart(song, i, q2), BankLine(i, p)).song ==
              WithPart(song, i, q2.(sampler := q2.sampler.(bank := p.sampler.bank)))
  {
    var s2 := WithPart(song, i, q2);
    BankLineEffect(s2, i, p);
    assert s2.parts[i] == q2;
    WithPartTwice(song, i, q2, q2.(sampler := q2.sampler.(bank := p.sampler.bank)));
  }

  lemma Regroup<T>(a: T, b: T, c: T, m: seq<T>, n: seq<T>)
    ensures [a] + ([b, c] + m + n) == [a, b, c] + m + n
  {
    assert [a] + [b, c] == [a, b, c];
  }

  /** The lines of a part with pages, replayed over a default part, leave the
      retained part. */
  lemma PartBodyEffect(song: Song, i: nat, p: Part)
    requires ValidSong(song) && i < CHANNELS && song.parts[i] == DefaultPart()
    requires ValidPart(p) && PartInRange(p) && p.pages != 0
    ensures AllWellIndexed(PartLines(i, p))
    ensures Replay(song, PartLines(i, p)) == WithPart(song, i, RetainedPart(p))
  {
    var q := song.parts[i];
    var h := [ProgrammerLine(i, p), TempoLine(i, p), BankLine(i, p)];
    var mixes := MixLines(i, p.sampler.mix, MIX_CHANNELS);
    var chans := ChannelLines(i, p.drumSequencer, DRUM_CHANNELS);
    var q3 := q.(pages := p.pages, repeats := p.repeats, chainTo := p.chainTo,
                 tempo := q.tempo.(bpm := p.tempo.bpm), sampler := q.sampler.(bank := p.sampler.bank));
    var q4 := q3.(sampler := q3.sampler.(mix := MixResult(q3.sampler.mix, p.sampler.mix, MIX_CHANNELS)));
    var q5 := q4.(drumSequencer := q4.drumSequencer.(channel := ChannelResult(q4.drumSequencer.channel, p.drumSequencer, DRUM_CHANNELS)));
    PartHeadEffect(song, i, p);
    assert AllWellIndexed(h + mixes) && Replay(song, h + mixes) == WithPart(song, i, q4) by {
      MixLinesEffect(Replay(song, h), i, p.sampler.mix, MIX_CHANNELS);
      ReplayAppend(song, h, mixes);
      WithPartTwice(song, i, q3, q4);
    }
    assert Replay(song, h + mixes + chans) == WithPart(song, i, q5) by {
      ChannelLinesEffect(Replay(song, h + mixes), i, p.drumSequencer, DRUM_CHANNELS);
      ReplayAppend(song, h + mixes, chans);
      WithPartTwice(song, i, q4, q5);
    }
    assert PartLines(i, p) == h + mixes + chans by {
      assert PartLines(i, p) == [h[0]] + ([h[1], h[2]] + mixes + chans);
      Regroup(h[0], h[1], h[2], mixes, chans);
    }
    assert q5.sampler.mix == p.sampler.mix;
    assert q5.drumSequencer.channel == RetainedPart(p).drumSequencer.channel;
  }

  lemma PartLinesEffect(song: Song, i: nat, p: Part)
    requires ValidSong(song) && i < CHANNELS && song.parts[i] == DefaultPart()
    requires ValidPart(p) && PartInRange(p)
    ensures AllWellIndexed(PartLines(i, p))
    ensures Replay(song, PartLines(i, p)) == WithPart(song, i, RetainedPart(p))
  {
    if p.pages == 0 {
      ProgrammerLineEffect(song, i, p);
      ReplayOne(song, ProgrammerLine(i, p));
      assert PartLines(i, p) == [ProgrammerLine(i, p)];
    } else {
      PartBodyEffect(song, i, p);
    }
  }

  /** The parts of a song whose first `n` parts have been replayed. */
  function RetainedPrefix(s: Song, n: nat): (r: seq<Part>)
    requires ValidSong(s) && n <= CHANNELS
    ensures |r| == CHANNELS
    ensures forall j :: 0 <= j < CHANNELS ==> r[j] == if j < n then RetainedPart(s.parts[j]) else DefaultPart()
  {
    seq(CHANNELS, j requires 0 <= j < CHANNELS => if j < n then RetainedPart(s.parts[j]) else DefaultPart())
  }

  lemma RetainedPrefixStep(s: Song, n: nat)
    requires ValidSong(s) && 0 < n <= CHANNELS
    ensures RetainedPrefix(s, n - 1)[n - 1 := RetainedPart(s.parts[n - 1])] == RetainedPrefix(s, n)
  {
  }

  /** Replaying the lines of the first `n` parts onto a new song restores the
      retained form of those parts and leaves the rest new. */
  lemma {:induction false} SongLinesEffect(s: Song, n: nat)
    requires ValidSong(s) && SongInRange(s) && n <= CHANNELS
    ensures AllWellIndexed(SongLines(s, n))
    ensures Replay(NewSong(), SongLines(s, n)) == Song(RetainedPrefix(s, n))
  {
    if n == 0 {
      assert NewSong().parts == RetainedPrefix(s, 0);
    } else {
      var a, b := SongLines(s, n - 1), PartLines(n - 1, s.parts[n - 1]);
      assert SongLines(s, n) == a + b;
      SongLinesEffect(s, n - 1);
      var before := Song(RetainedPrefix(s, n - 1));
      assert AllWellIndexed(b) && Replay(before, b) == Song(RetainedPrefix(s, n)) by {
        PartLinesEffect(before, n - 1, s.parts[n - 1]);
        RetainedPrefixStep(s, n);
      }
      ReplayAppend(NewSong(), a, b);
    }
  }

  /** Parsing the serialized lines of a song, in order, into a new song gives
      back the song's retained form. */
  lemma SerializeRoundTrip(s: Song)
    requires ValidSong(s) && SongInRange(s)
    ensures AllWellIndexed(SerializedLines(s))
    ensures Replay(NewSong(), SerializedLines(s)) == RetainedSong(s)
  {
    SongLinesEffect(s, CHANNELS);
    assert RetainedPrefix(s, CHANNELS) == RetainedSong(s).parts;
  }

  // ================================================================ the retained form

  lemma RetainedPartIdempotent(p: Part)
    requires ValidPart(p)
    ensures RetainedPart(RetainedPart(p)) == RetainedPart(p)
  {
    var r := RetainedPart(p);
    if p.pages != 0 {
      assert RetainedPart(r).drumSequencer.channel == r.drumSequencer.channel;
    }
  }

  lemma RetainedPartInRange(p: Part)
    requires ValidPart(p) && PartInRange(p)
    ensures PartInRange(RetainedPart(p))
  {
  }

  /** Disabled channels write no lines, so replacing them by default
      channels leaves the channel lines as they were. */
  lemma {:induction false} ChannelLinesRetained(i: int, p: Part, n: nat)
    requires ValidPart(p) && p.pages != 0 && n <= DRUM_CHANNELS
    ensures ChannelLines(i, RetainedPart(p).drumSequencer, n) == ChannelLines(i, p.drumSequencer, n)
  {
    if n > 0 {
      ChannelLinesRetained(i, p, n - 1);
    }
  }

  /** The serializer writes only what a part retains. */
  lemma PartLinesRetained(i: int, p: Part)
    requires ValidPart(p)
    ensures PartLines(i, RetainedPart(p)) == PartLines(i, p)
  {
    if p.pages != 0 {
      ChannelLinesRetained(i, p, DRUM_CHANNELS);
    }
  }

  lemma {:induction false} SongLinesRetained(s: Song, n: nat)
    requires ValidSong(s) && n <= CHANNELS
    ensures SongLines(RetainedSong(s), n) == SongLines(s, n)
  {
    if n > 0 {
      SongLinesRetained(s, n - 1);
      PartLinesRetained(n - 1, s.parts[n - 1]);
    }
  }

  lemma RetainedSongInRange(s: Song)
    requires ValidSong(s) && SongInRange(s)
    ensures SongInRange(RetainedSong(s))
  {
    var r := RetainedSong(s);
    forall j | 0 <= j < CHANNELS
      ensures PartInRange(r.parts[j])
    {
      RetainedPartInRange(s.parts[j]);
    }
  }

  /** Saving a reloaded song writes the same lines again, and the reloaded
      song is its own retained form: the round trip is stable after one pass. */
  lemma SerializeStable(s: Song)
    requires ValidSong(s) && SongInRange(s)
    ensures SongInRange(RetainedSong(s))
    ensures SerializedLines(RetainedSong(s)) == SerializedLines(s)
    ensures RetainedSong(RetainedSong(s)) == RetainedSong(s)
  {
    RetainedSongInRange(s);
    SongLinesRetained(s, CHANNELS);
    var r := RetainedSong(s);
    forall j | 0 <= j < CHANNELS
      ensures RetainedSong(r).parts[j] == r.parts[j]
    {
      RetainedPartIdempotent(s.parts[j]);
    }
  }
}
