// The command line parser of the shell, bin/sbush/parse.c, and its string builder,
// bin/sbush/str.c.
module Parser {
  const CHUNK: nat := 128

  // ----- what a command line means -----

  datatype Arg = Unset | Text(text: string)

  // struct pipe_part with its argv_parts, struct cmd with its pipe_parts
  datatype Pipe = Pipe(argc: nat, argv: seq<Arg>)

  datatype Cmd = Cmd(npipe: nat, pipes: seq<Pipe>)

  // Start and Space are states 0 and 1 of the code, Word is 2, Double and Single are the
  // two kinds of quotes, 3 and 4.
  datatype State = Start | Space | Word | Double | Single

  // Failed is the NULL the code returns. Never: at the end of the input getchar() returns -1,
  // and outside quotes that is one more character of the word, again and again.
  datatype Result = Parsed(cmd: Cmd) | Failed | Never

  predicate Quoting(state: State) {
    state == Double || state == Single
  }

  // As a char of C, a byte from 128 on is negative.
  predicate Negative(p: char) {
    128 as char <= p
  }

  function NewPipe(c: Cmd): Cmd {
    Cmd(c.npipe + 1, c.pipes + [Pipe(0, [])])
  }

  function WithLast(c: Cmd, p: Pipe): Cmd {
    if c.pipes == [] then c else Cmd(c.npipe, c.pipes[..|c.pipes| - 1] + [p])
  }

  function LastPipe(c: Cmd): Pipe {
    if c.pipes == [] then Pipe(0, []) else c.pipes[|c.pipes| - 1]
  }

  function NewArg(c: Cmd): Cmd {
    WithLast(c, Pipe(LastPipe(c).argc + 1, LastPipe(c).argv + [Unset]))
  }

  // dump(w, &nowa->str)
  function SetArg(c: Cmd, text: string): Cmd {
    var p := LastPipe(c);
    if p.argv == [] then c else WithLast(c, Pipe(p.argc, p.argv[..|p.argv| - 1] + [Text(text)]))
  }

  // A character that belongs to a word: what has to be created before it
  function Begin(state: State, c: Cmd): Cmd {
    match state
    case Start => NewArg(NewPipe(c))
    case Space => NewArg(c)
    case _ => c
  }

  // The rest of the input, read in a given state with the word w collected so far. A zero
  // byte ends the loop: outside quotes the code returns what it has.
  function Read(state: State, w: string, c: Cmd, input: string): Result
    decreases |input|
  {
    if input == [] then (if Quoting(state) then Failed else Never)
    else if input[0] == '\0' then (if Quoting(state) then Failed else Parsed(c))
    else
      var p := input[0];
      var rest := input[1..];
      if Quoting(state) then
        if p == (if state == Double then '"' else '\'') then Read(Word, w, c, rest)
        else if p == '\\' then
          if rest == [] || Negative(rest[0]) then Failed
          else if rest[0] == '\n' then Read(state, w, c, rest[1..])
          else Read(state, w + [rest[0]], c, rest[1..])
        else if Negative(p) then Failed
        else Read(state, w + [p], c, rest)
      else if p == '\n' then Parsed(if state == Word then SetArg(c, w) else c)
      else if p == ' ' then (if state == Word then Read(Space, "", SetArg(c, w), rest) else Read(state, w, c, rest))
      else if p == '"' then Read(Double, w, Begin(state, c), rest)
      else if p == '\'' then Read(Single, w, Begin(state, c), rest)
      else if p == '|' then
        (if state == Word then Read(Space, "", NewPipe(SetArg(c, w)), rest) else Read(Space, w, NewPipe(c), rest))
      else if p == '\\' then
        if rest == [] || Negative(rest[0]) then Failed
        else if rest[0] == '\n' then Read(state, w, c, rest[1..])
        else Read(Word, w + [rest[0]], Begin(state, c), rest[1..])
      else Read(Word, w + [p], Begin(state, c), rest)
  }

  // A whole line: only here is a negative first character an error outside quotes.
  function Line(input: string): Result {
    if input == [] || Negative(input[0]) then Failed else Read(Start, "", Cmd(0, []), input)
  }

  // ----- writing a line -----

  // How a character of an argument is written: as it is, or behind a backslash. A backslash
  // and a newline are not read at all.
  datatype Glyph = Lit(c: char) | Esc(c: char) | Fold

  // An argument is written as a row of pieces: outside quotes, or a quoted stretch
  datatype Piece = One(g: Glyph) | Quoted(single: bool, body: seq<Glyph>)

  // An argument behind a number of spaces; a command is some of them, and spaces after it
  datatype Placed = Placed(gap: nat, word: seq<Piece>)

  datatype Command = Command(words: seq<Placed>, trail: nat)

  function Mark(single: bool): char {
    if single then '\'' else '"'
  }

  function Drawn(g: Glyph): string {
    match g
    case Lit(c) => [c]
    case Esc(c) => ['\\', c]
    case Fold => ['\\', '\n']
  }

  function Meant(g: Glyph): string {
    match g
    case Lit(c) => [c]
    case Esc(c) => [c]
    case Fold => []
  }

  function BodyDrawn(gs: seq<Glyph>): string {
    if gs == [] then [] else Drawn(gs[0]) + BodyDrawn(gs[1..])
  }

  function BodyMeant(gs: seq<Glyph>): string {
    if gs == [] then [] else Meant(gs[0]) + BodyMeant(gs[1..])
  }

  function PieceDrawn(p: Piece): string {
    match p
    case One(g) => Drawn(g)
    case Quoted(single, body) => [Mark(single)] + (BodyDrawn(body) + [Mark(single)])
  }

  function PieceMeant(p: Piece): string {
    match p
    case One(g) => Meant(g)
    case Quoted(_, body) => BodyMeant(body)
  }

  function WordDrawn(ps: seq<Piece>): string {
    if ps == [] then [] else PieceDrawn(ps[0]) + WordDrawn(ps[1..])
  }

  function WordMeant(ps: seq<Piece>): string {
    if ps == [] then [] else PieceMeant(ps[0]) + WordMeant(ps[1..])
  }

  function Spaces(n: nat): string {
    if n == 0 then [] else [' '] + Spaces(n - 1)
  }

  function WordsDrawn(ws: seq<Placed>): string {
    if ws == [] then [] else Spaces(ws[0].gap) + (WordDrawn(ws[0].word) + WordsDrawn(ws[1..]))
  }

  function WordsMeant(ws: seq<Placed>): (r: seq<string>)
    ensures |r| == |ws|
  {
    if ws == [] then [] else [WordMeant(ws[0].word)] + WordsMeant(ws[1..])
  }

  // Commands with a | between them; a command may be empty
  function LineDrawn(cs: seq<Command>): string {
    if cs == [] then ['\n']
    else WordsDrawn(cs[0].words) + (Spaces(cs[0].trail) + (if |cs| == 1 then ['\n'] else ['|'] + LineDrawn(cs[1..])))
  }

  function Args(args: seq<string>): (r: seq<Arg>)
    ensures |r| == |args| && forall i | 0 <= i < |args| :: r[i] == Text(args[i])
  {
    seq(|args|, i requires 0 <= i < |args| => Text(args[i]))
  }

  function Pipes(cs: seq<Command>): (r: seq<Pipe>)
    ensures |r| == |cs|
    ensures forall i | 0 <= i < |cs| :: r[i] == Pipe(|cs[i].words|, Args(WordsMeant(cs[i].words)))
  {
    seq(|cs|, i requires 0 <= i < |cs| => Pipe(|cs[i].words|, Args(WordsMeant(cs[i].words))))
  }

  // Outside quotes these characters mean something else.
  predicate Special(c: char) {
    c == '\0' || c == '\n' || c == ' ' || c == '"' || c == '\'' || c == '|' || c == '\\'
  }

  predicate Escapable(c: char) {
    c != '\n' && !Negative(c)
  }

  predicate Bare(g: Glyph) {
    match g
    case Lit(c) => !Special(c)
    case Esc(c) => Escapable(c)
    case Fold => true
  }

  predicate Inside(g: Glyph, single: bool) {
    match g
    case Lit(c) => c != '\0' && c != '\\' && c != Mark(single) && !Negative(c)
    case Esc(c) => Escapable(c)
    case Fold => true
  }

  predicate Legible(p: Piece) {
    match p
    case One(g) => Bare(g)
    case Quoted(single, body) => forall i | 0 <= i < |body| :: Inside(body[i], single)
  }

  // A word needs more than backslashes and newlines: a pair of quotes is enough.
  predicate IsWord(ps: seq<Piece>) {
    (forall i | 0 <= i < |ps| :: Legible(ps[i])) && exists i :: 0 <= i < |ps| && ps[i] != One(Fold)
  }

  // Arguments are apart by at least one space.
  predicate Spaced(ws: seq<Placed>) {
    (forall i | 0 <= i < |ws| :: IsWord(ws[i].word)) && (forall i | 0 < i < |ws| :: ws[i].gap > 0)
  }

  predicate Written(cs: seq<Command>) {
    cs != [] && forall i | 0 <= i < |cs| :: Spaced(cs[i].words)
  }

  // ----- reading undoes writing -----

  lemma ReadInside(state: State, w: string, c: Cmd, g: Glyph, rest: string)
    requires Quoting(state) && Inside(g, state == Single)
    ensures Read(state, w, c, Drawn(g) + rest) == Read(state, w + Meant(g), c, rest)
  {
    var input := Drawn(g) + rest;
    assert w + [] == w;
    match g
    case Lit(x) => assert input[0] == x && input[1..] == rest;
    case Esc(x) => assert input[0] == '\\' && input[1..] == [x] + rest && input[1..][1..] == rest;
    case Fold => assert input[0] == '\\' && input[1..] == ['\n'] + rest && input[1..][1..] == rest;
  }

  // Quoted text is read up to the closing quote.
  lemma {:induction false} ReadBody(state: State, w: string, c: Cmd, gs: seq<Glyph>, rest: string)
    requires Quoting(state) && forall i | 0 <= i < |gs| :: Inside(gs[i], state == Single)
    ensures Read(state, w, c, BodyDrawn(gs) + ([Mark(state == Single)] + rest)) ==
      Read(Word, w + BodyMeant(gs), c, rest)
    decreases |gs|
  {
    hide Read, Inside, Drawn, Meant;
    var tail := [Mark(state == Single)] + rest;
    if gs == [] {
      assert BodyDrawn(gs) + tail == tail;
      assert w + BodyMeant(gs) == w;
      ReadClose(state, w, c, rest);
    } else {
      Assoc(Drawn(gs[0]), BodyDrawn(gs[1..]), tail);
      ReadInside(state, w, c, gs[0], BodyDrawn(gs[1..]) + tail);
      ReadBody(state, w + Meant(gs[0]), c, gs[1..], rest);
      Assoc(w, Meant(gs[0]), BodyMeant(gs[1..]));
    }
  }

  lemma Assoc(a: string, b: string, c: string)
    ensures a + b + c == a + (b + c)
  {}

  lemma ReadClose(state: State, w: string, c: Cmd, rest: string)
    requires Quoting(state)
    ensures Read(state, w, c, [Mark(state == Single)] + rest) == Read(Word, w, c, rest)
  {
    assert ([Mark(state == Single)] + rest)[1..] == rest;
  }

  lemma ReadOpen(state: State, w: string, c: Cmd, single: bool, rest: string)
    requires !Quoting(state)
    ensures Read(state, w, c, [Mark(single)] + rest) ==
      Read(if single then Single else Double, w, Begin(state, c), rest)
  {
    hide Begin;
    assert ([Mark(single)] + rest)[1..] == rest;
  }

  lemma ReadBare(state: State, w: string, c: Cmd, g: Glyph, rest: string)
    requires !Quoting(state) && Bare(g)
    ensures Read(state, w, c, Drawn(g) + rest) ==
      if g == Fold then Read(state, w, c, rest) else Read(Word, w + Meant(g), Begin(state, c), rest)
  {
    hide Begin;
    var input := Drawn(g) + rest;
    match g
    case Lit(x) => assert input[0] == x && input[1..] == rest;
    case Esc(x) => assert input[0] == '\\' && input[1..] == [x] + rest && input[1..][1..] == rest;
    case Fold => assert input[0] == '\\' && input[1..] == ['\n'] + rest && input[1..][1..] == rest;
  }

  lemma ReadPiece(state: State, w: string, c: Cmd, p: Piece, rest: string)
    requires !Quoting(state) && Legible(p) && p != One(Fold)
    ensures Read(state, w, c, PieceDrawn(p) + rest) == Read(Word, w + PieceMeant(p), Begin(state, c), rest)
  {
    hide Read, Begin, Bare, Inside;
    match p
    case One(g) => ReadBare(state, w, c, g, rest);
    case Quoted(single, body) =>
      var tail := BodyDrawn(body) + ([Mark(single)] + rest);
      Assoc([Mark(single)], BodyDrawn(body) + [Mark(single)], rest);
      Assoc(BodyDrawn(body), [Mark(single)], rest);
      ReadOpen(state, w, c, single, tail);
      ReadBody(if single then Single else Double, w, Begin(state, c), body, rest);
  }

  // More pieces of a word that has begun
  lemma {:induction false} ReadMore(w: string, c: Cmd, ps: seq<Piece>, rest: string)
    requires forall i | 0 <= i < |ps| :: Legible(ps[i])
    ensures Read(Word, w, c, WordDrawn(ps) + rest) == Read(Word, w + WordMeant(ps), c, rest)
    decreases |ps|
  {
    hide Read, Legible, PieceDrawn, PieceMeant;
    if ps == [] {
      assert WordDrawn(ps) + rest == rest && w + WordMeant(ps) == w;
    } else {
      Assoc(PieceDrawn(ps[0]), WordDrawn(ps[1..]), rest);
      ReadOne(w, c, ps[0], WordDrawn(ps[1..]) + rest);
      ReadMore(w + PieceMeant(ps[0]), c, ps[1..], rest);
      Assoc(w, PieceMeant(ps[0]), WordMeant(ps[1..]));
    }
  }

  lemma ReadOne(w: string, c: Cmd, p: Piece, rest: string)
    requires Legible(p)
    ensures Read(Word, w, c, PieceDrawn(p) + rest) == Read(Word, w + PieceMeant(p), c, rest)
  {
    hide Read;
    if p == One(Fold) {
      ReadBare(Word, w, c, Fold, rest);
      assert w + PieceMeant(p) == w;
    } else {
      ReadPiece(Word, w, c, p, rest);
    }
  }

  // However a word is written, what is collected is what it means.
  lemma {:induction false} ReadWord(state: State, c: Cmd, ps: seq<Piece>, rest: string)
    requires (state == Start || state == Space) && IsWord(ps)
    ensures Read(state, "", c, WordDrawn(ps) + rest) == Read(Word, WordMeant(ps), Begin(state, c), rest)
    decreases |ps|
  {
    hide Read, Legible, Begin, PieceDrawn, PieceMeant;
    var tail := WordDrawn(ps[1..]) + rest;
    Assoc(PieceDrawn(ps[0]), WordDrawn(ps[1..]), rest);
    if ps[0] == One(Fold) {
      ReadFold(state, c, tail);
      var i :| 0 <= i < |ps| && ps[i] != One(Fold);
      assert ps[1..][i - 1] == ps[i];
      ReadWord(state, c, ps[1..], rest);
      assert WordMeant(ps) == WordMeant(ps[1..]);
    } else {
      ReadPiece(state, "", c, ps[0], tail);
      ReadMore("" + PieceMeant(ps[0]), Begin(state, c), ps[1..], rest);
      assert "" + PieceMeant(ps[0]) == PieceMeant(ps[0]);
    }
  }

  lemma ReadFold(state: State, c: Cmd, rest: string)
    requires state == Start || state == Space
    ensures Read(state, "", c, PieceDrawn(One(Fold)) + rest) == Read(state, "", c, rest) && PieceMeant(One(Fold)) == []
  {
    hide Read;
    ReadBare(state, "", c, Fold, rest);
  }

  lemma {:induction false} ReadSpaces(state: State, w: string, c: Cmd, n: nat, rest: string)
    requires state == Start || state == Space
    ensures Read(state, w, c, Spaces(n) + rest) == Read(state, w, c, rest)
  {
    if n > 0 {
      assert (Spaces(n) + rest)[1..] == Spaces(n - 1) + rest;
      ReadSpaces(state, w, c, n - 1, rest);
    } else {
      assert Spaces(n) + rest == rest;
    }
  }

  // A word ends at the first space.
  lemma ReadGap(w: string, c: Cmd, n: nat, rest: string)
    requires n > 0
    ensures Read(Word, w, c, Spaces(n) + rest) == Read(Space, "", SetArg(c, w), rest)
  {
    assert (Spaces(n) + rest)[1..] == Spaces(n - 1) + rest;
    ReadSpaces(Space, "", SetArg(c, w), n - 1, rest);
  }

  // The command so far, with `args` in its last pipe
  function Grown(c: Cmd, done: seq<string>): Cmd {
    WithLast(c, Pipe(|done|, Args(done)))
  }

  lemma GrownStep(c: Cmd, done: seq<string>, arg: string)
    requires c.pipes != []
    ensures SetArg(NewArg(Grown(c, done)), arg) == Grown(c, done + [arg])
  {
    var d := Grown(c, done);
    assert LastPipe(d) == Pipe(|done|, Args(done));
    var e := NewArg(d);
    assert LastPipe(e) == Pipe(|done| + 1, Args(done) + [Unset]);
    assert (Args(done) + [Unset])[..|done|] + [Text(arg)] == Args(done + [arg]);
    assert e.pipes[..|e.pipes| - 1] == c.pipes[..|c.pipes| - 1];
  }

  // A list of arguments is read into the last pipe; the last of them is still pending.
  lemma {:induction false} ReadArgs(c: Cmd, done: seq<string>, ws: seq<Placed>, rest: string)
    requires Spaced(ws) && ws != [] && c.pipes != []
    ensures var args := WordsMeant(ws);
      Read(Space, "", Grown(c, done), WordsDrawn(ws) + rest) ==
        Read(Word, args[|args| - 1], NewArg(Grown(c, done + args[..|args| - 1])), rest)
    decreases |ws|
  {
    hide Grown, NewArg, SetArg, Spaces, Read, IsWord, WordDrawn, WordMeant;
    var arg := WordMeant(ws[0].word);
    var tail := WordsDrawn(ws[1..]) + rest;
    ReadPlaced(Grown(c, done), ws[0], WordsDrawn(ws[1..]), rest);
    if |ws| == 1 {
      assert tail == rest;
      assert done + WordsMeant(ws)[..0] == done;
    } else {
      ReadNext(arg, NewArg(Grown(c, done)), ws[1], WordsDrawn(ws[2..]), rest);
      assert ws[1..][0] == ws[1] && ws[1..][1..] == ws[2..];
      GrownStep(c, done, arg);
      ReadArgs(c, done + [arg], ws[1..], rest);
      DoneMore(done, arg, WordsMeant(ws[1..]));
    }
  }

  lemma ReadPlaced(c: Cmd, p: Placed, more: string, rest: string)
    requires IsWord(p.word)
    ensures Read(Space, "", c, Spaces(p.gap) + (WordDrawn(p.word) + more) + rest) ==
      Read(Word, WordMeant(p.word), NewArg(c), more + rest)
  {
    hide Read, IsWord;
    Assoc(Spaces(p.gap), WordDrawn(p.word) + more, rest);
    Assoc(WordDrawn(p.word), more, rest);
    ReadSpaces(Space, "", c, p.gap, WordDrawn(p.word) + (more + rest));
    ReadWord(Space, c, p.word, more + rest);
  }

  // The gap before the next argument ends the word.
  lemma ReadNext(w: string, c: Cmd, p: Placed, more: string, rest: string)
    requires p.gap > 0
    ensures Read(Word, w, c, Spaces(p.gap) + (WordDrawn(p.word) + more) + rest) ==
      Read(Space, "", SetArg(c, w), Spaces(p.gap) + (WordDrawn(p.word) + more) + rest)
  {
    hide Read;
    var tail := WordDrawn(p.word) + more + rest;
    Assoc(Spaces(p.gap), WordDrawn(p.word) + more, rest);
    ReadGap(w, c, p.gap, tail);
    ReadSpaces(Space, "", SetArg(c, w), p.gap, tail);
  }

  lemma DoneMore(done: seq<string>, arg: string, args: seq<string>)
    requires args != []
    ensures var all := [arg] + args;
      && done + [arg] + args[..|args| - 1] == done + all[..|all| - 1] && all[|all| - 1] == args[|args| - 1]
  {}

  // The command after `done` complete pipes, about to read the next one
  function After(done: seq<Pipe>): Cmd {
    Cmd(|done| + 1, done + [Pipe(0, [])])
  }

  lemma GrownAfter(done: seq<Pipe>, args: seq<string>)
    ensures Grown(After(done), args) == Cmd(|done| + 1, done + [Pipe(|args|, Args(args))])
    ensures Grown(After(done), []) == After(done)
  {
    assert Args([]) == [];
  }

  // One command of the line: all of its arguments but the end of the last
  lemma ReadCommand(done: seq<Pipe>, ws: seq<Placed>, rest: string) returns (last: string, c: Cmd)
    requires Spaced(ws) && ws != []
    ensures Read(Space, "", After(done), WordsDrawn(ws) + rest) == Read(Word, last, c, rest)
    ensures SetArg(c, last) == Cmd(|done| + 1, done + [Pipe(|ws|, Args(WordsMeant(ws)))])
  {
    hide Read, WordsDrawn, Grown, NewArg, SetArg, IsWord;
    var args := WordsMeant(ws);
    last := args[|args| - 1];
    c := NewArg(Grown(After(done), args[..|args| - 1]));
    GrownAfter(done, args);
    ReadArgs(After(done), [], ws, rest);
    assert [] + args[..|args| - 1] == args[..|args| - 1];
    GrownStep(After(done), args[..|args| - 1], last);
    assert args[..|args| - 1] + [last] == args;
  }

  // A | after a word and any number of spaces
  lemma ReadBar(w: string, c: Cmd, k: nat, rest: string)
    ensures Read(Word, w, c, Spaces(k) + (['|'] + rest)) == Read(Space, "", NewPipe(SetArg(c, w)), rest)
  {
    hide NewPipe, SetArg;
    assert (['|'] + rest)[1..] == rest;
    if k > 0 {
      ReadGap(w, c, k, ['|'] + rest);
    } else {
      assert Spaces(k) + (['|'] + rest) == ['|'] + rest;
    }
  }

  lemma ReadEnd(w: string, c: Cmd, k: nat, rest: string)
    ensures Read(Word, w, c, Spaces(k) + (['\n'] + rest)) == Parsed(SetArg(c, w))
  {
    hide SetArg;
    if k > 0 {
      ReadGap(w, c, k, ['\n'] + rest);
    } else {
      assert Spaces(k) + (['\n'] + rest) == ['\n'] + rest;
    }
  }

  lemma AssocLine(a: string, s: string, b: string, rest: string)
    ensures a + (s + b) + rest == a + (s + (b + rest))
  {}

  lemma PipesCons(done: seq<Pipe>, cs: seq<Command>)
    requires cs != []
    ensures done + Pipes(cs) == done + [Pipe(|cs[0].words|, Args(WordsMeant(cs[0].words)))] + Pipes(cs[1..])
  {}

  // A command up to the bar or the newline behind it
  lemma ReadToBar(done: seq<Pipe>, ws: seq<Placed>, k: nat, rest: string)
    requires Spaced(ws)
    ensures Read(Space, "", After(done), WordsDrawn(ws) + (Spaces(k) + (['|'] + rest))) ==
      Read(Space, "", After(done + [Pipe(|ws|, Args(WordsMeant(ws)))]), rest)
  {
    hide Read, NewPipe, SetArg, Spaces, IsWord;
    BarAfter(done, Pipe(|ws|, Args(WordsMeant(ws))));
    if ws == [] {
      EmptyCommand(done, Spaces(k) + (['|'] + rest));
      ReadSpaces(Space, "", After(done), k, ['|'] + rest);
      ReadLoneBar(After(done), rest);
    } else {
      var last, c := ReadCommand(done, ws, Spaces(k) + (['|'] + rest));
      ReadBar(last, c, k, rest);
    }
  }

  lemma ReadToEnd(done: seq<Pipe>, ws: seq<Placed>, k: nat, rest: string)
    requires Spaced(ws)
    ensures Read(Space, "", After(done), WordsDrawn(ws) + (Spaces(k) + (['\n'] + rest))) ==
      Parsed(Cmd(|done| + 1, done + [Pipe(|ws|, Args(WordsMeant(ws)))]))
  {
    hide Read, SetArg, Spaces, IsWord;
    if ws == [] {
      EmptyCommand(done, Spaces(k) + (['\n'] + rest));
      ReadSpaces(Space, "", After(done), k, ['\n'] + rest);
      ReadLoneEnd(Space, After(done), rest);
    } else {
      var last, c := ReadCommand(done, ws, Spaces(k) + (['\n'] + rest));
      ReadEnd(last, c, k, rest);
    }
  }

  lemma EmptyCommand(done: seq<Pipe>, rest: string)
    ensures WordsDrawn([]) + rest == rest && After(done) == Cmd(|done| + 1, done + [Pipe(0, Args(WordsMeant([])))])
  {
    assert Args(WordsMeant([])) == [];
  }

  lemma ReadLoneBar(c: Cmd, rest: string)
    ensures Read(Space, "", c, ['|'] + rest) == Read(Space, "", NewPipe(c), rest)
    ensures Read(Start, "", c, ['|'] + rest) == Read(Space, "", NewPipe(c), rest)
  {
    assert (['|'] + rest)[1..] == rest;
  }

  lemma ReadLoneEnd(state: State, c: Cmd, rest: string)
    requires state == Start || state == Space
    ensures Read(state, "", c, ['\n'] + rest) == Parsed(c)
  {}

  lemma {:induction false} ReadPipes(done: seq<Pipe>, cs: seq<Command>, rest: string)
    requires Written(cs)
    ensures Read(Space, "", After(done), LineDrawn(cs) + rest) == Parsed(Cmd(|done| + |cs|, done + Pipes(cs)))
    decreases |cs|
  {
    hide Read, WordsDrawn, After, Spaces, Spaced;
    var ws, k := cs[0].words, cs[0].trail;
    PipesCons(done, cs);
    if |cs| == 1 {
      AssocLine(WordsDrawn(ws), Spaces(k), ['\n'], rest);
      ReadToEnd(done, ws, k, rest);
      assert Pipes(cs[1..]) == [];
    } else {
      var more := LineDrawn(cs[1..]) + rest;
      AssocLine(WordsDrawn(ws), Spaces(k), ['|'] + LineDrawn(cs[1..]), rest);
      Assoc(['|'], LineDrawn(cs[1..]), rest);
      ReadToBar(done, ws, k, more);
      ReadPipes(done + [Pipe(|ws|, Args(WordsMeant(ws)))], cs[1..], rest);
    }
  }

  lemma BarAfter(done: seq<Pipe>, p: Pipe)
    ensures NewPipe(Cmd(|done| + 1, done + [p])) == After(done + [p])
  {}

  // What a line means: a command that is empty counts, but not in front of the first bar.
  function Commands(cs: seq<Command>): seq<Command> {
    if cs != [] && cs[0].words == [] then cs[1..] else cs
  }

  // However a pipeline is written, the line is read back as the pipeline. Only a negative
  // byte in front of everything is refused.
  lemma ParseUndoesPrint(cs: seq<Command>, rest: string)
    requires Written(cs)
    ensures LineDrawn(cs) != []
    ensures Line(LineDrawn(cs) + rest) ==
      if Negative(LineDrawn(cs)[0]) then Failed else Parsed(Cmd(|Commands(cs)|, Pipes(Commands(cs))))
  {
    hide Read, Spaces, WordDrawn, Spaced, Negative;
    assert (LineDrawn(cs) + rest)[0] == LineDrawn(cs)[0];
    if cs[0].words == [] {
      FirstEmpty(cs, rest);
    } else {
      ReadPipes([], cs, rest);
      assert [] + Pipes(cs) == Pipes(cs);
      FirstWord(cs, rest);
    }
  }

  // At the start of a line there is no pipe yet: an empty command leaves none behind.
  lemma FirstEmpty(cs: seq<Command>, rest: string)
    requires Written(cs) && cs[0].words == []
    ensures Read(Start, "", Cmd(0, []), LineDrawn(cs) + rest) == Parsed(Cmd(|cs[1..]|, Pipes(cs[1..])))
  {
    hide Read, Spaces, Spaced;
    var k := cs[0].trail;
    var tail := if |cs| == 1 then ['\n'] else ['|'] + LineDrawn(cs[1..]);
    assert LineDrawn(cs) == Spaces(k) + tail;
    Assoc(Spaces(k), tail, rest);
    ReadSpaces(Start, "", Cmd(0, []), k, tail + rest);
    if |cs| == 1 {
      ReadLoneEnd(Start, Cmd(0, []), rest);
      assert Pipes(cs[1..]) == [];
    } else {
      Assoc(['|'], LineDrawn(cs[1..]), rest);
      ReadLoneBar(Cmd(0, []), LineDrawn(cs[1..]) + rest);
      assert NewPipe(Cmd(0, [])) == After([]);
      ReadPipes([], cs[1..], rest);
      assert [] + Pipes(cs[1..]) == Pipes(cs[1..]);
    }
  }

  // At the start of a line the first pipe is not there yet.
  lemma FirstWord(cs: seq<Command>, rest: string)
    requires Written(cs) && cs[0].words != []
    ensures Read(Start, "", Cmd(0, []), LineDrawn(cs) + rest) == Read(Space, "", After([]), LineDrawn(cs) + rest)
  {
    hide Read, Spaces, WordDrawn, IsWord;
    var p, ws := cs[0].words[0], cs[0].words;
    var tail := Spaces(cs[0].trail) + (if |cs| == 1 then ['\n'] else ['|'] + LineDrawn(cs[1..]));
    var more := WordsDrawn(ws[1..]) + tail + rest;
    FirstApart(Spaces(p.gap), WordDrawn(p.word), WordsDrawn(ws[1..]), tail, rest);
    ReadSpaces(Start, "", Cmd(0, []), p.gap, WordDrawn(p.word) + more);
    ReadSpaces(Space, "", After([]), p.gap, WordDrawn(p.word) + more);
    ReadWord(Start, Cmd(0, []), p.word, more);
    ReadWord(Space, After([]), p.word, more);
    assert NewPipe(Cmd(0, [])) == After([]);
  }

  lemma FirstApart(s: string, w: string, ws: string, tail: string, rest: string)
    ensures s + (w + ws) + tail + rest == s + (w + (ws + tail + rest))
  {}

  // Every text can be written as an argument, the empty one too.
  function AnyWord(text: string): seq<Piece> {
    [Quoted(false, [])] + AnyPieces(text)
  }

  function AnyPieces(text: string): seq<Piece> {
    if text == [] then [] else [AnyPiece(text[0])] + AnyPieces(text[1..])
  }

  function AnyPiece(c: char): Piece {
    if Negative(c) then One(Lit(c)) else if c == '\n' then Quoted(true, [Lit(c)]) else One(Esc(c))
  }

  lemma {:induction false} AnyText(text: string)
    ensures IsWord(AnyWord(text)) && WordMeant(AnyWord(text)) == text && WordDrawn(AnyWord(text))[..2] == "\"\""
    decreases |text|
  {
    assert AnyWord(text)[0] == Quoted(false, []) && AnyWord(text)[1..] == AnyPieces(text);
    AnyMeans(text);
    assert PieceMeant(Quoted(false, [])) + WordMeant(AnyPieces(text)) == WordMeant(AnyPieces(text));
  }

  lemma {:induction false} AnyMeans(text: string)
    ensures WordMeant(AnyPieces(text)) == text
    ensures forall i | 0 <= i < |AnyPieces(text)| :: Legible(AnyPieces(text)[i])
    decreases |text|
  {
    if text != [] {
      AnyMeans(text[1..]);
      AnyOne(text[0]);
      assert AnyPieces(text)[1..] == AnyPieces(text[1..]);
      assert [text[0]] + text[1..] == text;
    }
  }

  lemma AnyOne(c: char)
    ensures Legible(AnyPiece(c)) && PieceMeant(AnyPiece(c)) == [c]
  {
    assert BodyMeant([Lit(c)]) == [c];
  }

  // ----- when the code never stops -----

  // Where a character of the input stands
  datatype Place = Out | InDouble | InSingle

  function PlaceOf(state: State): Place {
    match state
    case Double => InDouble
    case Single => InSingle
    case _ => Out
  }

  // From a character at this place on, the input has no newline or zero byte outside quotes,
  // closes all its quotes, does not end in a backslash, and has no zero byte or negative
  // character where the code looks for one.
  predicate Unfinished(place: Place, input: string)
    decreases |input|
  {
    if input == [] then place == Out
    else
      var p, rest := input[0], input[1..];
      if p == '\0' || (place == Out && p == '\n') then false
      else if place != Out && p == (if place == InDouble then '"' else '\'') then Unfinished(Out, rest)
      else if p == '\\' then rest != [] && !Negative(rest[0]) && Unfinished(place, rest[1..])
      else if place != Out then !Negative(p) && Unfinished(place, rest)
      else Unfinished(if p == '"' then InDouble else if p == '\'' then InSingle else Out, rest)
  }

  lemma {:induction false} ReadNever(state: State, w: string, c: Cmd, input: string)
    ensures Read(state, w, c, input).Never? <==> Unfinished(PlaceOf(state), input)
    decreases |input|
  {
    hide Begin, SetArg, NewPipe;
    if input != [] && input[0] != '\0' {
      var p, rest := input[0], input[1..];
      if p == '\\' {
        if rest != [] {
          ReadNever(state, w, c, rest[1..]);
          ReadNever(state, w + [rest[0]], c, rest[1..]);
          ReadNever(Word, w + [rest[0]], Begin(state, c), rest[1..]);
        }
      } else {
        ReadNever(Word, w, c, rest);
        ReadNever(state, w + [p], c, rest);
        ReadNever(state, w, c, rest);
        ReadNever(Space, "", SetArg(c, w), rest);
        ReadNever(Double, w, Begin(state, c), rest);
        ReadNever(Single, w, Begin(state, c), rest);
        ReadNever(Space, "", NewPipe(SetArg(c, w)), rest);
        ReadNever(Space, w, NewPipe(c), rest);
        ReadNever(Word, w + [p], Begin(state, c), rest);
      }
    }
  }

  // The loop runs on for ever exactly on an input that never finishes the line.
  lemma LineNever(input: string)
    ensures Line(input).Never? <==> input != [] && !Negative(input[0]) && Unfinished(Out, input)
  {
    hide Read, Unfinished;
    ReadNever(Start, "", Cmd(0, []), input);
  }

  // The code gives up exactly on these: a quote that stays open, or a backslash or quoted
  // text that runs into a negative byte or the end.
  predicate Broken(place: Place, input: string)
    decreases |input|
  {
    if input == [] then place != Out
    else
      var p, rest := input[0], input[1..];
      if p == '\0' then place != Out
      else if place == Out && p == '\n' then false
      else if place != Out && p == (if place == InDouble then '"' else '\'') then Broken(Out, rest)
      else if p == '\\' then rest == [] || Negative(rest[0]) || Broken(place, rest[1..])
      else if place != Out then Negative(p) || Broken(place, rest)
      else Broken(if p == '"' then InDouble else if p == '\'' then InSingle else Out, rest)
  }

  lemma {:induction false} ReadFails(state: State, w: string, c: Cmd, input: string)
    ensures Read(state, w, c, input).Failed? <==> Broken(PlaceOf(state), input)
    decreases |input|
  {
    hide Begin, SetArg, NewPipe;
    if input != [] && input[0] != '\0' {
      var p, rest := input[0], input[1..];
      if p == '\\' {
        if rest != [] {
          ReadFails(state, w, c, rest[1..]);
          ReadFails(state, w + [rest[0]], c, rest[1..]);
          ReadFails(Word, w + [rest[0]], Begin(state, c), rest[1..]);
        }
      } else {
        ReadFails(Word, w, c, rest);
        ReadFails(state, w + [p], c, rest);
        ReadFails(state, w, c, rest);
        ReadFails(Space, "", SetArg(c, w), rest);
        ReadFails(Space, "", NewPipe(SetArg(c, w)), rest);
        ReadFails(Space, w, NewPipe(c), rest);
        ReadFails(Double, w, Begin(state, c), rest);
        ReadFails(Single, w, Begin(state, c), rest);
        ReadFails(Word, w + [p], Begin(state, c), rest);
      }
    }
  }

  lemma LineFails(input: string)
    ensures Line(input).Failed? <==> input == [] || Negative(input[0]) || Broken(Out, input)
  {
    hide Read, Broken;
    ReadFails(Start, "", Cmd(0, []), input);
  }

  // Put differently, all that is missing is the newline: the input alone is no command, and
  // with a newline after it it is one.
  lemma {:induction false} ReadLacksNewline(state: State, w: string, c: Cmd, input: string)
    ensures Read(state, w, c, input).Never? <==>
      !Read(state, w, c, input).Parsed? && Read(state, w, c, input + ['\n']).Parsed?
    decreases |input|
  {
    hide Begin, SetArg, NewPipe;
    if input != [] && input[0] != '\0' {
      var p, rest := input[0], input[1..];
      assert (input + ['\n'])[0] == p && (input + ['\n'])[1..] == rest + ['\n'];
      if p == '\\' {
        if rest != [] {
          assert (rest + ['\n'])[0] == rest[0] && (rest + ['\n'])[1..] == rest[1..] + ['\n'];
          ReadLacksNewline(state, w, c, rest[1..]);
          ReadLacksNewline(state, w + [rest[0]], c, rest[1..]);
          ReadLacksNewline(Word, w + [rest[0]], Begin(state, c), rest[1..]);
        } else {
          assert (rest + ['\n'])[1..] == [];
        }
      } else {
        ReadLacksNewline(Word, w, c, rest);
        ReadLacksNewline(state, w + [p], c, rest);
        ReadLacksNewline(state, w, c, rest);
        ReadLacksNewline(Space, "", SetArg(c, w), rest);
        ReadLacksNewline(Double, w, Begin(state, c), rest);
        ReadLacksNewline(Single, w, Begin(state, c), rest);
        ReadLacksNewline(Space, "", NewPipe(SetArg(c, w)), rest);
        ReadLacksNewline(Space, w, NewPipe(c), rest);
        ReadLacksNewline(Word, w + [p], Begin(state, c), rest);
      }
    }
  }

  lemma LineLacksNewline(input: string)
    ensures Line(input).Never? <==> input != [] && !Line(input).Parsed? && Line(input + ['\n']).Parsed?
  {
    hide Read;
    if input != [] {
      ReadLacksNewline(Start, "", Cmd(0, []), input);
      assert (input + ['\n'])[0] == input[0];
    }
  }

  // One letter and no newline: the line on which the code never stops
  lemma OneLetter()
    ensures Line("a").Never?
  {
    var c := Begin(Start, Cmd(0, []));
    assert "a"[1..] == "";
    assert Read(Word, ['a'], c, "") == Never;
    assert Read(Start, "", Cmd(0, []), "a") == Read(Word, "" + ['a'], c, "");
  }

  // ----- str.c -----

  // struct str_block
  class Block {
    const s: array<char>
    var len: nat
    var next: Block?

    constructor ()
      ensures s.Length == CHUNK && len == 0 && next == null && fresh(s)
    {
      s, len, next := new char[CHUNK](_ => '\0'), 0, null;
    }
  }

  // struct str: a chain of chunks, all full but the last
  class Str {
    var len: nat
    var head: Block?
    var tail: Block?
    ghost var text: string
    ghost var chain: seq<Block>
    ghost var repr: set<object>

    // Valid, or with an empty chunk at the end
    ghost predicate Linked()
      reads this, repr
    {
      && this in repr && len == |text|
      && (if chain == [] then head == null && tail == null else head == chain[0] && tail == chain[|chain| - 1])
      && (forall j | 0 <= j < |chain| :: chain[j] in repr && chain[j].s in repr && chain[j].s.Length == CHUNK)
      && (forall i, j | 0 <= i < j < |chain| :: chain[i] != chain[j] && chain[i].s != chain[j].s)
      && (forall j | 0 <= j < |chain| - 1 :: chain[j].len == CHUNK && chain[j].next == chain[j + 1])
      && (chain == [] ==> len == 0)
      && (chain != [] ==>
            var last := chain[|chain| - 1];
            last.next == null && 0 <= last.len <= CHUNK && len == CHUNK * (|chain| - 1) + last.len)
      && (forall j, k | 0 <= j < |chain| && 0 <= k < CHUNK && CHUNK * j + k < len ::
        chain[j].s[k] == text[CHUNK * j + k])
    }

    ghost predicate Valid()
      reads this, repr
    {
      Linked() && (chain != [] ==> chain[|chain| - 1].len > 0)
    }

    // str_new
    constructor ()
      ensures Valid() && text == "" && fresh(repr)
    {
      len, head, tail, text, chain := 0, null, null, "", [];
      new;
      repr := {this};
    }

    // A fresh chunk at the end
    method NewBlock()
      requires Linked() && (chain != [] ==> tail.len == CHUNK)
      modifies this, tail
      ensures Linked() && chain != [] && tail.len == 0 && text == old(text) && fresh(repr - old(repr))
        && old(repr) <= repr
    {
      var b := new Block();
      if head == null {
        head := b;
      } else {
        tail.next := b;
      }
      tail := b;
      chain := chain + [b];
      repr := repr + {b, b.s};
    }

    // tail->s[tail->len++] = c
    method Put(c: char)
      requires Linked() && chain != [] && tail.len < CHUNK
      modifies this, tail, tail.s
      ensures Valid() && text == old(text) + [c] && repr == old(repr)
    {
      tail.s[tail.len] := c;
      tail.len := tail.len + 1;
      len := len + 1;
      text := text + [c];
    }

    method Append(c: char)
      requires Valid()
      modifies repr
      ensures Valid() && text == old(text) + [c] && fresh(repr - old(repr))
    {
      if head == null || tail.len == CHUNK {
        NewBlock();
      }
      Put(c);
    }

    // dump: the text and a zero byte
    method Dump() returns (res: array<char>)
      requires Valid()
      ensures fresh(res) && res[..] == text + ['\0']
    {
      res := new char[len + 1](_ => '\0');
      var at := 0;
      var b := head;
      ghost var j := 0;
      while b != null
        invariant 0 <= j <= |chain| && (b == if j < |chain| then chain[j] else null)
        invariant at == if j < |chain| then CHUNK * j else len
        invariant res.Length == len + 1 && forall i | 0 <= i < at :: res[i] == text[i]
        decreases |chain| - j
      {
        var n := b.len;
        assert forall k | 0 <= k < n :: b.s[k] == text[at + k];
        forall k | at <= k < at + n { res[k] := b.s[k - at]; }
        at := at + n;
        b := b.next;
        j := j + 1;
      }
      res[len] := '\0';
    }
  }

  // ----- parse -----

  // dump(w, &nowa->str)
  method DumpArg(w: Str, cmd: Cmd) returns (c: Cmd)
    requires w.Valid()
    ensures c == SetArg(cmd, w.text)
  {
    var res := w.Dump();
    assert res[..][..res.Length - 1] == w.text;
    c := SetArg(cmd, res[..res.Length - 1]);
  }

  // One character inside quotes, or two if the first is a backslash
  method InQuotes(input: string, i: nat, state: State, w: Str, ghost cmd: Cmd)
      returns (failed: bool, state': State, i': nat)
    requires w.Valid() && i < |input| && input[i] != '\0' && Quoting(state)
    modifies w.repr
    ensures failed ==> Read(state, old(w.text), cmd, input[i..]) == Failed
    ensures !failed ==>
      && w.Valid() && fresh(w.repr - old(w.repr)) && i < i' <= |input|
      && Read(state', w.text, cmd, input[i'..]) == Read(state, old(w.text), cmd, input[i..])
  {
    var p := input[i];
    failed, state', i' := false, state, i + 1;
    assert input[i..][1..] == input[i + 1..];
    if p == (if state == Double then '"' else '\'') {
      state' := Word;
    } else {
      var escape := p == '\\';
      if escape {
        if i' == |input| {
          failed := true;
          return;
        }
        p, i' := input[i'], i' + 1;
        assert input[i + 1..][1..] == input[i'..];
      }
      if Negative(p) {
        failed := true;
        return;
      }
      if p != '\n' || !escape {
        w.Append(p);
      }
    }
  }

  // The switch on a character outside quotes
  method Switch(input: string, i: nat, state: State, w: Str, cmd: Cmd)
    returns (r: Result, state': State, w': Str, cmd': Cmd, i': nat)
    requires w.Valid() && i < |input| && input[i] != '\0' && !Quoting(state)
    modifies w.repr
    ensures !r.Never? ==> Read(state, old(w.text), cmd, input[i..]) == r
    ensures r.Never? ==>
      && w'.Valid() && fresh(w'.repr - old(w.repr)) && i < i' <= |input|
      && Read(state', w'.text, cmd', input[i'..]) == Read(state, old(w.text), cmd, input[i..])
  {
    hide Begin, SetArg, NewPipe;
    r, state', w', cmd', i' := Never, state, w, cmd, i + 1;
    var p := input[i];
    assert input[i..][1..] == input[i + 1..];
    if p == '\n' {
      if state == Word {
        cmd' := DumpArg(w, cmd);
      }
      r := Parsed(cmd');
    } else if p == ' ' {
      if state == Word {
        cmd' := DumpArg(w, cmd);
        w' := new Str();
        state' := Space;
      }
    } else if p == '\'' || p == '"' {
      cmd' := Begin(state, cmd);
      state' := if p == '\'' then Single else Double;
    } else if p == '|' {
      if state == Word {
        cmd' := DumpArg(w, cmd);
        w' := new Str();
      }
      state' := Space;
      cmd' := NewPipe(cmd');
    } else {
      if p == '\\' {
        if i' == |input| || Negative(input[i']) {
          r := Failed;
          return;
        }
        p, i' := input[i'], i' + 1;
        assert input[i + 1..][1..] == input[i'..];
        if p == '\n' {
          return;
        }
      }
      cmd' := Begin(state, cmd);
      w.Append(p);
      state' := Word;
    }
  }

  // getchar() delivers the characters of the input one by one.
  method Parse(input: string) returns (r: Result)
    ensures r == Line(input)
  {
    if input == [] || Negative(input[0]) {
      return Failed;
    }
    var w := new Str();
    var cmd := Cmd(0, []);
    var state := Start;
    var i := 0;
    while i < |input| && input[i] != '\0'
      invariant 0 <= i <= |input| && w.Valid() && fresh(w.repr)
      invariant Read(state, w.text, cmd, input[i..]) == Read(Start, "", Cmd(0, []), input)
      decreases |input| - i
    {
      if Quoting(state) {
        var failed;
        failed, state, i := InQuotes(input, i, state, w, cmd);
        if failed {
          return Failed;
        }
      } else {
        r, state, w, cmd, i := Switch(input, i, state, w, cmd);
        if !r.Never? {
          return r;
        }
      }
    }
    if Quoting(state) {
      return Failed;
    }
    return if i < |input| then Parsed(cmd) else Never;
  }
}
