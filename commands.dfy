/** The application's command language: a typed line is split at spaces into
    tokens, and the tokens are parsed into one command. */
module Commands {
  import opened Wrappers
  import opened Transformers

  // ---------------------------------------------------------------------------
  // Tokenizer

  /** The line cut at every space; consecutive spaces give empty pieces. */
  function Pieces(s: string): (r: seq<string>)
    ensures |r| >= 1
  {
    if s == [] then [""]
    else
      var rest := Pieces(s[1..]);
      if s[0] == ' ' then [""] + rest else [[s[0]] + rest[0]] + rest[1..]
  }

  /** The pieces glued back together with single spaces. */
  function Join(pieces: seq<string>): string
    requires |pieces| >= 1
  {
    if |pieces| == 1 then pieces[0] else pieces[0] + " " + Join(pieces[1..])
  }

  /** What `std::getline(iss, token, ' ')` delivers until it fails: every
      piece, except that a last piece that is empty (the line is empty or ends
      in a space) is not delivered. */
  function Tokens(line: string): (r: seq<string>)
    ensures forall i :: 0 <= i < |r| ==> ' ' !in r[i]
  {
    var p := Pieces(line);
    PiecesHaveNoSpace(line);
    if p[|p| - 1] == "" then p[..|p| - 1] else p
  }

  lemma {:induction false} PiecesHaveNoSpace(s: string)
    ensures forall i :: 0 <= i < |Pieces(s)| ==> ' ' !in Pieces(s)[i]
  {
    if s != [] {
      PiecesHaveNoSpace(s[1..]);
    }
  }

  /** Joining the pieces gives back the line. */
  lemma {:induction false} JoinPieces(s: string)
    ensures Join(Pieces(s)) == s
  {
    if s != [] {
      JoinPieces(s[1..]);
      var rest := Pieces(s[1..]);
      if s[0] == ' ' {
        assert ([""] + rest)[1..] == rest;
        assert s == [' '] + s[1..];
      } else {
        var r := [[s[0]] + rest[0]] + rest[1..];
        if |rest| == 1 {
          assert s == [s[0]] + rest[0];
        } else {
          assert r[1..] == rest[1..];
          assert Join(rest) == rest[0] + " " + Join(rest[1..]);
          assert s == [s[0]] + s[1..];
        }
      }
    }
  }

  /** A word without spaces is one piece. */
  lemma {:induction false} PiecesOfWord(a: string)
    requires ' ' !in a
    ensures Pieces(a) == [a]
  {
    if a != [] {
      assert ' ' !in a[1..] by {
        forall k | 0 <= k < |a[1..]| ensures a[1..][k] != ' ' {
          assert a[1..][k] == a[k + 1];
        }
      }
      PiecesOfWord(a[1..]);
      assert a == [a[0]] + a[1..];
    }
  }

  /** A word and a space split off the front of a line as one piece. */
  lemma {:induction false} PiecesOfCons(a: string, b: string)
    requires ' ' !in a
    ensures Pieces(a + " " + b) == [a] + Pieces(b)
  {
    if a == [] {
      assert a + " " + b == [' '] + b;
      assert (a + " " + b)[1..] == b;
    } else {
      assert ' ' !in a[1..] by {
        forall k | 0 <= k < |a[1..]| ensures a[1..][k] != ' ' {
          assert a[1..][k] == a[k + 1];
        }
      }
      PiecesOfCons(a[1..], b);
      var s := a + " " + b;
      assert s[0] == a[0] && s[1..] == a[1..] + " " + b;
      var rest := [a[1..]] + Pieces(b);
      assert rest[0] == a[1..] && rest[1..] == Pieces(b);
      assert [a[0]] + a[1..] == a;
    }
  }

  /** Splitting the joined pieces gives them back, when no piece holds a space. */
  lemma {:induction false} PiecesJoin(pieces: seq<string>)
    requires |pieces| >= 1 && forall i :: 0 <= i < |pieces| ==> ' ' !in pieces[i]
    ensures Pieces(Join(pieces)) == pieces
  {
    if |pieces| == 1 {
      PiecesOfWord(pieces[0]);
    } else {
      PiecesJoin(pieces[1..]);
      PiecesOfCons(pieces[0], Join(pieces[1..]));
      assert pieces == [pieces[0]] + pieces[1..];
    }
  }

  /** The getline loop step: a word followed by a space is the first token. */
  lemma TokensOfCons(a: string, b: string)
    requires ' ' !in a
    ensures Tokens(a + " " + b) == [a] + Tokens(b)
  {
    PiecesOfCons(a, b);
    var p := Pieces(b);
    assert ([a] + p)[..|p|] == [a] + p[..|p| - 1];
  }

  /** One successful getline at `i`: the characters up to the space at `j`
      (or the end of the line) are the next token, and reading resumes at
      `next`, after the space. */
  lemma TokensStep(line: string, i: nat, j: nat, next: nat)
    requires i < |line| && i <= j <= |line| && ' ' !in line[i..j]
    requires j < |line| ==> line[j] == ' ' && next == j + 1
    requires j == |line| ==> next == j
    ensures Tokens(line[i..]) == [line[i..j]] + Tokens(line[next..])
  {
    var token := line[i..j];
    if j < |line| {
      assert line[i..] == token + " " + line[j + 1..];
      TokensOfCons(token, line[j + 1..]);
    } else {
      assert line[i..] == token;
      PiecesOfWord(token);
      assert line[next..] == [];
    }
  }

  /** The loop step of GetTokenizedInput: appending the token read at `i`
      keeps the tokens so far followed by those of the rest of the line equal
      to the tokens of the whole line. */
  lemma TokensAdvance(line: string, tokens: seq<string>, i: nat, j: nat, next: nat)
    requires i < |line| && i <= j <= |line| && ' ' !in line[i..j]
    requires j < |line| ==> line[j] == ' ' && next == j + 1
    requires j == |line| ==> next == j
    requires tokens + Tokens(line[i..]) == Tokens(line)
    ensures (tokens + [line[i..j]]) + Tokens(line[next..]) == Tokens(line)
  {
    TokensStep(line, i, j, next);
    assert (tokens + [line[i..j]]) + Tokens(line[next..]) == tokens + ([line[i..j]] + Tokens(line[next..]));
  }

  /** GetTokenizedInput(tokens): the previous tokens are discarded and the
      line is split by repeated `std::getline(iss, token, ' ')`. Reading the
      line from standard input is not modelled: the line is a parameter. */
  method GetTokenizedInput(line: string) returns (tokens: seq<string>)
    ensures tokens == Tokens(line)
    ensures forall i :: 0 <= i < |tokens| ==> ' ' !in tokens[i]
  {
    tokens := [];
    var i := 0;
    assert line[0..] == line;
    while i < |line|
      invariant 0 <= i <= |line|
      invariant tokens + Tokens(line[i..]) == Tokens(line)
    {
      var j := ScanToken(line, i);
      var next := if j < |line| then j + 1 else j;
      TokensAdvance(line, tokens, i, j, next);
      tokens := tokens + [line[i..j]];
      i := next;
    }
    assert line[i..] == [];
  }

  /** One getline's scan: from `i` up to the next space or the end of the line. */
  method ScanToken(line: string, i: nat) returns (j: nat)
    requires i <= |line|
    ensures i <= j <= |line| && ' ' !in line[i..j]
    ensures j < |line| ==> line[j] == ' '
  {
    j := i;
    while j < |line| && line[j] != ' '
      invariant i <= j <= |line|
      invariant forall k :: i <= k < j ==> line[k] != ' '
    {
      j := j + 1;
    }
  }

  // ---------------------------------------------------------------------------
  // Parser

  /** The help texts: Help() and Help("input"), Help("processing"),
      Help("processing haar"). */
  datatype HelpTopic = GeneralHelp | InputHelp | ProcessingHelp | HaarHelp

  /** What a token list asks for. The four Invalid commands are the four
      logged complaints; FilenameMissing is "input file" with no name. */
  datatype Command =
    | NoCommand
    | Quit
    | Help(topic: HelpTopic)
    | Start
    | Pause
    | Stop
    | PrintStats
    | SetSourceWebcam
    | SetSourceVideoFile(filename: string)
    | FilenameMissing
    | SetTransformerColorspace(colorspace: Colorspace)
    | SetTransformerHaarCascadeClassifier(cascade: HaarCascadeClassifierType)
    | InvalidCommand
    | InvalidInputCommand
    | InvalidProcessingCommand
    | InvalidHaarCommand

  /** The first tokens ParseTokens recognises. */
  const CommandWords: set<string> :=
    {"q", "quit", "h", "help", "start", "pause", "stop", "stats", "i", "input", "p", "processing"}

  /** ParseTokens(tokens): an empty list does nothing; otherwise the first
      token is removed and selects the command, and "input" and "processing"
      pass the remaining tokens on. */
  function ParseTokens(tokens: seq<string>): (c: Command)
    ensures tokens == [] <==> c == NoCommand
    ensures c == InvalidCommand <==> tokens != [] && tokens[0] !in CommandWords
  {
    if tokens == [] then NoCommand
    else
      var token, rest := tokens[0], tokens[1..];
      if token == "q" || token == "quit" then Quit
      else if token == "h" || token == "help" then Help(GeneralHelp)
      else if token == "start" then Start
      else if token == "pause" then Pause
      else if token == "stop" then Stop
      else if token == "stats" then PrintStats
      else if token == "i" || token == "input" then ParseInputTokens(rest)
      else if token == "p" || token == "processing" then ParseProcessingTokens(rest)
      else InvalidCommand
  }

  /** ParseInputTokens(tokens): no token shows the input help; "webcam"
      selects the webcam; "file" selects the file named by the next token. */
  function ParseInputTokens(tokens: seq<string>): (c: Command)
    ensures tokens == [] <==> c == Help(InputHelp)
    ensures c.SetSourceVideoFile? <==> |tokens| >= 2 && tokens[0] == "file"
    ensures c.SetSourceVideoFile? ==> c.filename == tokens[1]
    ensures c == Help(InputHelp) || c.SetSourceWebcam? || c.SetSourceVideoFile? || c.FilenameMissing? || c.InvalidInputCommand?
  {
    if tokens == [] then Help(InputHelp)
    else
      var token, rest := tokens[0], tokens[1..];
      if token == "webcam" then SetSourceWebcam
      else if token == "file" then
        if rest == [] then FilenameMissing else SetSourceVideoFile(rest[0])
      else InvalidInputCommand
  }

  /** ParseProcessingTokens(tokens): no token shows the processing help;
      "bypass", "gray" and "hsv" select a colorspace; "haar" selects the
      cascade named by the next token, which is read but not removed. */
  function ParseProcessingTokens(tokens: seq<string>): (c: Command)
    ensures tokens == [] <==> c == Help(ProcessingHelp)
    ensures c.SetTransformerHaarCascadeClassifier? <==>
      |tokens| >= 2 && tokens[0] == "haar" && HaarCascadeNamed(tokens[1]).Some?
    ensures c.SetTransformerHaarCascadeClassifier? ==> HaarCascadeName(c.cascade) == tokens[1]
    ensures c == Help(ProcessingHelp) || c == Help(HaarHelp) || c.SetTransformerColorspace?
            || c.SetTransformerHaarCascadeClassifier? || c.InvalidProcessingCommand? || c.InvalidHaarCommand?
  {
    if tokens == [] then Help(ProcessingHelp)
    else
      var token, rest := tokens[0], tokens[1..];
      if token == "bypass" then SetTransformerColorspace(BYPASS)
      else if token == "gray" then SetTransformerColorspace(BGR2GRAY)
      else if token == "hsv" then SetTransformerColorspace(BGR2HSV)
      else if token == "haar" then
        if rest == [] then Help(HaarHelp)
        else match HaarCascadeNamed(rest[0])
          case Some(cascade) => SetTransformerHaarCascadeClassifier(cascade)
          case None => InvalidHaarCommand
      else InvalidProcessingCommand
  }

  /** The cascade a "processing haar" name selects, if any. */
  function HaarCascadeNamed(name: string): (r: Option<HaarCascadeClassifierType>)
    ensures r.Some? ==> HaarCascadeName(r.value) == name
  {
    if name == "eyes" then Some(Eyes)
    else if name == "left_eye" then Some(LeftEye)
    else if name == "right_eye" then Some(RightEye)
    else if name == "eyes_w_glasses" then Some(EyesWithGlasses)
    else if name == "face" then Some(FrontalFace)
    else if name == "face_alt" then Some(FrontalFaceAlt)
    else if name == "face_alt2" then Some(FrontalFaceAlt2)
    else if name == "face_alt_tree" then Some(FrontalFaceAltTree)
    else if name == "face_profile" then Some(ProfileFace)
    else if name == "smile" then Some(Smile)
    else if name == "body" then Some(FullBody)
    else if name == "upper_body" then Some(UpperBody)
    else if name == "lower_body" then Some(LowerBody)
    else if name == "cat_face" then Some(CatFrontalFace)
    else if name == "cat_face_ext" then Some(CatFrontalFaceExtended)
    else None
  }

  /** The name under which each cascade is offered. */
  function HaarCascadeName(cascade: HaarCascadeClassifierType): string
  {
    match cascade
    case Eyes => "eyes"
    case LeftEye => "left_eye"
    case RightEye => "right_eye"
    case EyesWithGlasses => "eyes_w_glasses"
    case FrontalFace => "face"
    case FrontalFaceAlt => "face_alt"
    case FrontalFaceAlt2 => "face_alt2"
    case FrontalFaceAltTree => "face_alt_tree"
    case ProfileFace => "face_profile"
    case Smile => "smile"
    case FullBody => "body"
    case UpperBody => "upper_body"
    case LowerBody => "lower_body"
    case CatFrontalFace => "cat_face"
    case CatFrontalFaceExtended => "cat_face_ext"
  }

  /** Every cascade is reachable by its name, so the fifteen names select
      fifteen distinct cascades. */
  lemma HaarCascadeNamesRoundTrip(cascade: HaarCascadeClassifierType)
    ensures HaarCascadeNamed(HaarCascadeName(cascade)) == Some(cascade)
  {
  }

  /** A canonical token list for each command the parser can produce, other
      than the four complaints. */
  function Render(c: Command): seq<string>
  {
    match c
    case NoCommand => []
    case Quit => ["quit"]
    case Help(topic) =>
      (match topic
       case GeneralHelp => ["help"]
       case InputHelp => ["input"]
       case ProcessingHelp => ["processing"]
       case HaarHelp => ["processing", "haar"])
    case Start => ["start"]
    case Pause => ["pause"]
    case Stop => ["stop"]
    case PrintStats => ["stats"]
    case SetSourceWebcam => ["input", "webcam"]
    case SetSourceVideoFile(name) => ["input", "file", name]
    case FilenameMissing => ["input", "file"]
    case SetTransformerColorspace(colorspace) =>
      (match colorspace
       case BYPASS => ["processing", "bypass"]
       case BGR2GRAY => ["processing", "gray"]
       case BGR2HSV => ["processing", "hsv"])
    case SetTransformerHaarCascadeClassifier(cascade) => ["processing", "haar", HaarCascadeName(cascade)]
    case _ => ["?"]
  }

  predicate IsComplaint(c: Command)
  {
    c.InvalidCommand? || c.InvalidInputCommand? || c.InvalidProcessingCommand? || c.InvalidHaarCommand?
  }

  /** Every command other than a complaint is produced by its canonical
      token list: the parser reaches each action it dispatches to. */
  lemma ParseRender(c: Command)
    requires !IsComplaint(c)
    ensures ParseTokens(Render(c)) == c
  {
    if c == Help(InputHelp) || c.SetSourceWebcam? || c.SetSourceVideoFile? || c.FilenameMissing? {
      ParseRenderInput(c);
    } else if c == Help(ProcessingHelp) || c == Help(HaarHelp) || c.SetTransformerColorspace?
              || c.SetTransformerHaarCascadeClassifier? {
      ParseRenderProcessing(c);
    }
  }

  /** ParseRender for the commands of the input stage. */
  lemma ParseRenderInput(c: Command)
    requires c == Help(InputHelp) || c.SetSourceWebcam? || c.SetSourceVideoFile? || c.FilenameMissing?
    ensures ParseTokens(Render(c)) == c
  {
    var rest := Render(c)[1..];
    assert Render(c) == ["input"] + rest;
    InputAlias(rest);
    if c.SetSourceVideoFile? {
      assert rest == ["file", c.filename];
    }
  }

  /** ParseRender for the commands of the processing stage. */
  lemma ParseRenderProcessing(c: Command)
    requires c == Help(ProcessingHelp) || c == Help(HaarHelp) || c.SetTransformerColorspace?
             || c.SetTransformerHaarCascadeClassifier?
    ensures ParseTokens(Render(c)) == c
  {
    var rest := Render(c)[1..];
    assert Render(c) == ["processing"] + rest;
    ProcessingAlias(rest);
    if c.SetTransformerHaarCascadeClassifier? {
      HaarCascadeNamesRoundTrip(c.cascade);
      assert rest == ["haar", HaarCascadeName(c.cascade)];
    }
  }

  /** "q" and "quit" are the same command, whatever follows. */
  lemma QuitAlias(rest: seq<string>)
    ensures ParseTokens(["q"] + rest) == ParseTokens(["quit"] + rest) == Quit
  {
  }

  /** "h" and "help" are the same command, whatever follows. */
  lemma HelpAlias(rest: seq<string>)
    ensures ParseTokens(["h"] + rest) == ParseTokens(["help"] + rest) == Help(GeneralHelp)
  {
  }

  /** "i" and "input" both hand the rest of the tokens to ParseInputTokens. */
  lemma InputAlias(rest: seq<string>)
    ensures ParseTokens(["i"] + rest) == ParseTokens(["input"] + rest) == ParseInputTokens(rest)
  {
    assert (["i"] + rest)[1..] == rest && (["input"] + rest)[1..] == rest;
  }

  /** "p" and "processing" both hand the rest of the tokens to ParseProcessingTokens. */
  lemma ProcessingAlias(rest: seq<string>)
    ensures ParseTokens(["p"] + rest) == ParseTokens(["processing"] + rest) == ParseProcessingTokens(rest)
  {
    assert (["p"] + rest)[1..] == rest && (["processing"] + rest)[1..] == rest;
  }
}
