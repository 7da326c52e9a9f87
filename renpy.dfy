/** The Ren'Py script the tool exports: a two-line header followed by one
    section per emotion, in list order. A section declares the emotion's
    `Composite` image and, when the two frames call for it, an eyes
    sub-image that blinks and a mouth sub-image that flaps while the
    character speaks. Only the character name is sanitised into a token;
    emotion names and frame paths are pasted into the text as they are. */
module RenpyScript {
  import opened Text
  import opened Emotions

  /** Pixel placement of the face and mouth layers over the base image. */
  datatype Offset = Offset(x: int, y: int)

  // ---------------------------------------------------------------------
  // The character token

  /** No space, no parenthesis and no upper-case ASCII letter. */
  predicate IsToken(t: string) {
    forall i :: 0 <= i < |t| ==> t[i] != ' ' && !IsParen(t[i]) && !IsUpper(t[i])
  }

  /** `value.replace(/[\(\)]/g, "").toLowerCase().split(" ").join("_")`. */
  function CharacterToken(value: string): string {
    Join(Split(Lower(StripParens(value)), ' '), '_')
  }

  /** The token is the lower-cased, parenthesis-free name with every space
      turned into an underscore, and it is a clean token. */
  lemma {:induction false} CharacterTokenSpec(value: string)
    ensures CharacterToken(value) == ReplaceChar(Lower(StripParens(value)), ' ', '_')
    ensures IsToken(CharacterToken(value))
    ensures |CharacterToken(value)| == |value| - Count(value, '(') - Count(value, ')')
  {
    JoinSplit(Lower(StripParens(value)), ' ', '_');
    StripParensLength(value);
  }

  lemma {:induction false} StripParensLength(s: string)
    ensures |StripParens(s)| == |s| - Count(s, '(') - Count(s, ')')
    decreases |s|
  {
    if s != [] {
      StripParensLength(s[1..]);
    }
  }

  /** A clean token passes through the sanitizer unchanged. */
  lemma {:induction false} TokenIsFixedPoint(t: string)
    requires IsToken(t)
    ensures CharacterToken(t) == t
  {
    StripParensOfClean(t);
    assert Lower(t) == t;
    JoinSplit(t, ' ', '_');
    assert ReplaceChar(t, ' ', '_') == t;
  }

  /** Sanitizing twice is sanitizing once. */
  lemma {:induction false} CharacterTokenIdempotent(value: string)
    ensures CharacterToken(CharacterToken(value)) == CharacterToken(value)
  {
    CharacterTokenSpec(value);
    TokenIsFixedPoint(CharacterToken(value));
  }

  lemma {:induction false} StripParensConcat(a: string, b: string)
    ensures StripParens(a + b) == StripParens(a) + StripParens(b)
    decreases |a|
  {
    if a == [] {
      assert a + b == b;
    } else {
      assert (a + b)[1..] == a[1..] + b;
      StripParensConcat(a[1..], b);
    }
  }

  /** Sanitizing works character by character: the token of a
      concatenation is the concatenation of the tokens. */
  lemma {:induction false} CharacterTokenConcat(a: string, b: string)
    ensures CharacterToken(a + b) == CharacterToken(a) + CharacterToken(b)
  {
    CharacterTokenSpec(a);
    CharacterTokenSpec(b);
    CharacterTokenSpec(a + b);
    StripParensConcat(a, b);
    var sa, sb := StripParens(a), StripParens(b);
    LowerConcat(sa, sb);
    ReplaceCharConcat(Lower(sa), Lower(sb), ' ', '_');
  }

  /** A name of the form `Name (Variant)` becomes `name_variant`: the space
      and the opening parenthesis together turn into one underscore. */
  lemma {:induction false} TokenOfVariantName(a: string, b: string)
    ensures CharacterToken(a + " (" + b + ")") == CharacterToken(a) + "_" + CharacterToken(b)
  {
    CharacterTokenConcat(a + " (" + b, ")");
    CharacterTokenConcat(a + " (", b);
    CharacterTokenConcat(a, " (");
    TokensOfSeparators();
  }

  lemma TokensOfSeparators()
    ensures CharacterToken(" (") == "_" && CharacterToken(")") == ""
  {
  }

  // The steps of the worked example below, one literal at a time.

  lemma StripParensOfHappy()
    ensures StripParens("Happy") == "Happy"
  {
  }

  lemma StripParensOfSoft()
    ensures StripParens("Soft") == "Soft"
  {
  }

  lemma LowerOfWords()
    ensures Lower("Happy") == "happy" && Lower("Soft") == "soft"
  {
  }

  lemma NoSpacesInWords()
    ensures ReplaceChar("happy", ' ', '_') == "happy" && ReplaceChar("soft", ' ', '_') == "soft"
  {
  }

  lemma ExampleSplits()
    ensures "Happy (Soft)" == "Happy" + " (" + "Soft" + ")"
    ensures "happy" + "_" + "soft" == "happy_soft"
  {
  }

  /** The worked example: `Happy (Soft)` becomes `happy_soft`. */
  lemma CharacterTokenExample()
    ensures CharacterToken("Happy (Soft)") == "happy_soft"
  {
    ExampleSplits();
    TokenOfVariantName("Happy", "Soft");
    CharacterTokenSpec("Happy");
    CharacterTokenSpec("Soft");
    StripParensOfHappy();
    StripParensOfSoft();
    LowerOfWords();
    NoSpacesInWords();
  }

  /** The name of the downloaded file: the character token plus `.rpy`. */
  function FileName(value: string): (r: string)
    ensures |r| >= 4 && r[|r| - 4..] == ".rpy"
    ensures r[..|r| - 4] == CharacterToken(value)
    ensures IsToken(r[..|r| - 4])
  {
    CharacterTokenSpec(value);
    var r := CharacterToken(value) + ".rpy";
    assert r[..|r| - 4] == CharacterToken(value);
    r
  }

  // ---------------------------------------------------------------------
  // Text of one section

  function Quote(s: string): string {
    "\"" + s + "\""
  }

  /** `(x, y)` as the template renders the selection's offset. */
  function OffsetTuple(o: Offset): string {
    "(" + IntToString(o.x) + ", " + IntToString(o.y) + ")"
  }

  function EyesImage(c: string, name: string): string {
    c + " eyes " + name
  }

  function MouthImage(c: string, name: string): string {
    c + " mouth " + name
  }

  /** What stands between the quotes of the face layer: the eyes sub-image
      when the eyes blink, otherwise frame 0's face path. */
  function FaceLayer(c: string, e: Emotion): string {
    if Blink(e) then EyesImage(c, e.name) else e.frame0.face
  }

  /** The mouth layer: a `WhileSpeaking` switch between the mouth sub-image
      and frame 0's mouth when the lips flap, otherwise frame 0's mouth
      path. The switch's closing parenthesis is the one that also ends the
      composite's last line in the static case. */
  function MouthLayer(c: string, e: Emotion): string {
    if LipFlap(e) then
      "WhileSpeaking(" + Quote(c) + ", " + Quote(MouthImage(c, e.name)) + ", " + Quote(e.frame0.mouth)
    else Quote(e.frame0.mouth)
  }

  /** The `Composite` declaration of a 1024 by 1024 image: the base image at
      (0, 0), then the face and mouth layers at the selection's offset. */
  function CompositeDecl(c: string, name: string, basePath: string, o: string,
                         face: string, mouth: string): string
  {
    "image " + c + " " + name + " = Composite(\n"
      + "  (1024, 1024),\n"
      + "  (0, 0), " + Quote(basePath) + ",\n"
      + "  " + o + ", " + Quote(face) + ",\n"
      + "  " + o + ", " + mouth + ")\n"
      + ")\n"
  }

  /** The fixed hold times between blinks: literal text, no randomness. */
  const BlinkChoices := "choice:\n    4.5\nchoice:\n    3.5\nchoice:\n    1.5\n"

  /** The eyes sub-image: frame 0's face, a hold, frame 1's face for a
      quarter second, repeat. Empty when the eyes do not blink. */
  function EyesBlock(c: string, e: Emotion): string {
    if Blink(e) then
      "image " + EyesImage(c, e.name) + ":\n"
        + Quote(e.frame0.face) + "\n"
        + BlinkChoices
        + Quote(e.frame1.face) + "\n"
        + ".25\n"
        + "repeat"
    else ""
  }

  /** The mouth sub-image: frame 1's mouth and frame 0's mouth alternating
      every 0.2 seconds. Empty when the lips do not flap. */
  function MouthBlock(c: string, e: Emotion): string {
    if LipFlap(e) then
      "image " + MouthImage(c, e.name) + ":\n"
        + Quote(e.frame1.mouth) + "\n"
        + ".2\n"
        + Quote(e.frame0.mouth) + "\n"
        + ".2\n"
        + "repeat"
    else ""
  }

  /** The text one emotion contributes to the script. */
  function Section(c: string, e: Emotion, basePath: string, o: string): string {
    CompositeDecl(c, e.name, basePath, o, FaceLayer(c, e), MouthLayer(c, e))
      + "\n" + EyesBlock(c, e) + "\n\n" + MouthBlock(c, e) + "\n\n"
  }

  // ---------------------------------------------------------------------
  // The whole script

  /** The two comment lines: the character name as typed, and the asset
      pack of the character last chosen from the list. */
  function Header(value: string, charId: string): string {
    "# Character: " + value + "\n"
      + "# Remember to include portrait_data/" + charId
      + " from https://github.com/sh0wer1ee/DLPortraits in the portrait_data folder in the Ren'Py project\n"
  }

  /** The sections of `es`, in list order. */
  function Sections(c: string, basePath: string, o: string, es: seq<Emotion>): string {
    ConcatMap(e => Section(c, e, basePath, o), es)
  }

  /** The exported script for the character typed as `value`, pack
      `charId`, base path `basePath`, the selection's offset and the
      emotion list. */
  function Script(value: string, charId: string, basePath: string, off: Offset,
                  es: seq<Emotion>): string
  {
    Header(value, charId) + Sections(CharacterToken(value), basePath, OffsetTuple(off), es)
  }

  // ---------------------------------------------------------------------
  // Order and shape of the output

  /** The sections of a concatenation are the concatenation of the sections. */
  lemma {:induction false} SectionsConcat(c: string, b: string, o: string, xs: seq<Emotion>, ys: seq<Emotion>)
    ensures Sections(c, b, o, xs + ys) == Sections(c, b, o, xs) + Sections(c, b, o, ys)
  {
    ConcatMapAppend(e => Section(c, e, b, o), xs, ys);
  }

  /** Exactly one section per emotion, in list order: the script is the
      header, the sections of the emotions before `k`, the section of
      emotion `k`, then the sections of the emotions after it, all with
      the same token, base path and offset. */
  lemma {:induction false} ScriptSectionAt(value: string, charId: string, b: string, off: Offset,
                        es: seq<Emotion>, k: nat)
    requires k < |es|
    ensures var c, o := CharacterToken(value), OffsetTuple(off);
      Script(value, charId, b, off, es)
        == Header(value, charId) + Sections(c, b, o, es[..k]) + Section(c, es[k], b, o) + Sections(c, b, o, es[k + 1..])
  {
    var c, o := CharacterToken(value), OffsetTuple(off);
    SectionsSplitAt(c, b, o, es, k);
    var h, x, y, z := Header(value, charId), Sections(c, b, o, es[..k]), Section(c, es[k], b, o), Sections(c, b, o, es[k + 1..]);
    ConcatAssoc(h, x + y, z);
    ConcatAssoc(h, x, y);
  }

  lemma {:induction false} SectionsSplitAt(c: string, b: string, o: string, es: seq<Emotion>, k: nat)
    requires k < |es|
    ensures Sections(c, b, o, es)
      == Sections(c, b, o, es[..k]) + Section(c, es[k], b, o) + Sections(c, b, o, es[k + 1..])
  {
    ConcatMapSplitAt((e: Emotion) => Section(c, e, b, o), es, k);
  }

  /** Appending an emotion appends its section to the script and changes
      nothing before it; removing the last emotion removes exactly its
      section from the end. */
  lemma {:induction false} ScriptOfPush(value: string, charId: string, b: string, off: Offset,
                     es: seq<Emotion>, e: Emotion)
    ensures Script(value, charId, b, off, es + [e])
      == Script(value, charId, b, off, es) + Section(CharacterToken(value), e, b, OffsetTuple(off))
  {
    var c, o := CharacterToken(value), OffsetTuple(off);
    SectionsOfPush(c, b, o, es, e);
    ConcatAssoc(Header(value, charId), Sections(c, b, o, es), Section(c, e, b, o));
  }

  lemma {:induction false} SectionsOfPush(c: string, b: string, o: string, es: seq<Emotion>, e: Emotion)
    ensures Sections(c, b, o, es + [e]) == Sections(c, b, o, es) + Section(c, e, b, o)
  {
    ConcatMapPush((e: Emotion) => Section(c, e, b, o), es, e);
  }

  /** Before the export loop: no emotions, no sections, only the text `h`. */
  lemma {:induction false} SectionsOfNone(h: string, c: string, b: string, o: string, es: seq<Emotion>)
    ensures h + Sections(c, b, o, es[..0]) == h
  {
    assert es[..0] == [];
  }

  /** One step of the export loop: text `h` followed by the sections of the
      first `i + 1` emotions is the same text with the first `i` sections,
      followed by the section of emotion `i`. */
  lemma {:induction false} SectionsStep(h: string, c: string, b: string, o: string, es: seq<Emotion>, i: nat)
    requires i < |es|
    ensures h + Sections(c, b, o, es[..i + 1]) == (h + Sections(c, b, o, es[..i])) + Section(c, es[i], b, o)
  {
    assert es[..i + 1] == es[..i] + [es[i]];
    SectionsOfPush(c, b, o, es[..i], es[i]);
    ConcatAssoc(h, Sections(c, b, o, es[..i]), Section(c, es[i], b, o));
  }

  // ---------------------------------------------------------------------
  // What each section says

  /** The composite's animated layers name exactly the sub-images the
      section goes on to declare. */
  lemma {:induction false} SubImagesAreDeclared(c: string, e: Emotion)
    ensures Blink(e) ==> EyesBlock(c, e)[..|"image " + FaceLayer(c, e) + ":\n"|]
                         == "image " + FaceLayer(c, e) + ":\n"
    ensures LipFlap(e) ==> MouthLayer(c, e)[..|"WhileSpeaking(" + Quote(c) + ", " + Quote(MouthImage(c, e.name))|]
                           == "WhileSpeaking(" + Quote(c) + ", " + Quote(MouthImage(c, e.name))
    ensures LipFlap(e) ==> MouthBlock(c, e)[..|"image " + MouthImage(c, e.name) + ":\n"|]
                           == "image " + MouthImage(c, e.name) + ":\n"
    ensures !Blink(e) <==> EyesBlock(c, e) == ""
    ensures !LipFlap(e) <==> MouthBlock(c, e) == ""
  {
  }

  /** An emotion that neither blinks nor flaps gets its composite of frame 0
      alone, with both sub-image blocks left out. */
  lemma {:induction false} StaticSection(c: string, e: Emotion, b: string, o: string)
    requires !Blink(e) && !LipFlap(e)
    ensures Section(c, e, b, o)
      == CompositeDecl(c, e.name, b, o, e.frame0.face, Quote(e.frame0.mouth)) + "\n\n\n\n\n"
  {
  }

  /** Frame 1's face reaches the text only through the blink: changing it
      between two values that both leave the eyes still changes nothing. */
  lemma {:induction false} UnusedSecondFaceIsDropped(c: string, e: Emotion, face: string, b: string, o: string)
    requires !Blink(e) && !Blink(e.(frame1 := e.frame1.(face := face)))
    ensures Section(c, e.(frame1 := e.frame1.(face := face)), b, o) == Section(c, e, b, o)
  {
  }

  /** Frame 1's mouth reaches the text only through the lip-flap. */
  lemma {:induction false} UnusedSecondMouthIsDropped(c: string, e: Emotion, mouth: string, b: string, o: string)
    requires !LipFlap(e) && !LipFlap(e.(frame1 := e.frame1.(mouth := mouth)))
    ensures Section(c, e.(frame1 := e.frame1.(mouth := mouth)), b, o) == Section(c, e, b, o)
  {
  }

  /** A fresh emotion with nothing captured: its empty paths appear as `""`
      literals, and no sub-image is declared. */
  lemma {:induction false} FreshEmotionSection(c: string, n: nat, b: string, o: string)
    ensures Section(c, NewEmotion(n), b, o)
      == CompositeDecl(c, "undefined_" + NatToString(n), b, o, "", "\"\"") + "\n\n\n\n\n"
  {
    StaticSection(c, NewEmotion(n), b, o);
  }

  /** A face kept and a mouth changed: the face layer is the literal
      `a.png`, the mouth layer a `WhileSpeaking` switch back to `x.png`, no
      eyes block, and a mouth block flapping between `y.png` and `x.png`. */
  lemma {:induction false} MouthOnlySection(c: string, name: string, e: Emotion)
    requires e == Emotion(name, Frame("a.png", "x.png"), Frame("a.png", "y.png"))
    ensures FaceLayer(c, e) == "a.png"
    ensures MouthLayer(c, e) == "WhileSpeaking(" + Quote(c) + ", " + Quote(MouthImage(c, name)) + ", " + Quote("x.png")
    ensures EyesBlock(c, e) == ""
    ensures MouthBlock(c, e)
      == "image " + MouthImage(c, name) + ":\n" + Quote("y.png") + "\n" + ".2\n" + Quote("x.png") + "\n" + ".2\n" + "repeat"
  {
    assert !Blink(e) && LipFlap(e);
  }

  // ---------------------------------------------------------------------
  // Parenthesis balance of the composite

  /** Opening minus closing parentheses. */
  function Balance(s: string): int {
    Count(s, '(') as int - Count(s, ')') as int
  }

  predicate ParenFree(s: string) {
    forall i :: 0 <= i < |s| ==> !IsParen(s[i])
  }

  lemma {:induction false} BalanceConcat(a: string, b: string)
    ensures Balance(a + b) == Balance(a) + Balance(b)
  {
    CountConcat(a, b, '(');
    CountConcat(a, b, ')');
  }

  lemma {:induction false} Balance3(a: string, b: string, c: string)
    ensures Balance(a + b + c) == Balance(a) + Balance(b) + Balance(c)
  {
    BalanceConcat(a, b);
    BalanceConcat(a + b, c);
  }

  lemma {:induction false} Balance4(a: string, b: string, c: string, d: string)
    ensures Balance(a + b + c + d) == Balance(a) + Balance(b) + Balance(c) + Balance(d)
  {
    Balance3(a, b, c);
    BalanceConcat(a + b + c, d);
  }

  lemma {:induction false} Balance5(a: string, b: string, c: string, d: string, e: string)
    ensures Balance(a + b + c + d + e) == Balance(a) + Balance(b) + Balance(c) + Balance(d) + Balance(e)
  {
    Balance4(a, b, c, d);
    BalanceConcat(a + b + c + d, e);
  }

  lemma {:induction false} BalanceOfParenFree(s: string)
    requires ParenFree(s)
    ensures Balance(s) == 0
  {
    CountAbsent(s, '(');
    CountAbsent(s, ')');
  }

  lemma {:induction false} BalanceOfOpen(a: string, b: string)
    requires ParenFree(a) && ParenFree(b)
    ensures Balance(a + "(" + b) == 1
  {
    BalanceOfParenFree(a);
    BalanceOfParenFree(b);
    Balance3(a, "(", b);
  }

  lemma {:induction false} BalanceOfClose(a: string, b: string)
    requires ParenFree(a) && ParenFree(b)
    ensures Balance(a + ")" + b) == -1
  {
    BalanceOfParenFree(a);
    BalanceOfParenFree(b);
    Balance3(a, ")", b);
  }

  lemma {:induction false} BalanceOfPair(a: string, m: string, b: string)
    requires ParenFree(a) && ParenFree(m) && ParenFree(b)
    ensures Balance(a + "(" + m + ")" + b) == 0
  {
    BalanceOfParenFree(a);
    BalanceOfParenFree(m);
    BalanceOfParenFree(b);
    Balance5(a, "(", m, ")", b);
  }

  // The template's fixed pieces, a few at a time.

  lemma HeadPieces()
    ensures Balance("image ") == 0 && Balance(" ") == 0 && Balance(" = Composite(\n") == 1
  {
    BalanceOfParenFree("image ");
    BalanceOfParenFree(" ");
    assert " = Composite(\n" == " = Composite" + "(" + "\n";
    BalanceOfOpen(" = Composite", "\n");
  }

  lemma SizePiece()
    ensures Balance("  (1024, 1024),\n") == 0
  {
    assert "  (1024, 1024),\n" == "  " + "(" + "1024, 1024" + ")" + ",\n";
    BalanceOfPair("  ", "1024, 1024", ",\n");
  }

  lemma OriginPiece()
    ensures Balance("  (0, 0), ") == 0
  {
    assert "  (0, 0), " == "  " + "(" + "0, 0" + ")" + ", ";
    BalanceOfPair("  ", "0, 0", ", ");
  }

  lemma LayerPieces()
    ensures Balance("  ") == 0 && Balance(", ") == 0 && Balance(",\n") == 0 && Balance(")\n") == -1
  {
    BalanceOfParenFree(",\n");
    BalanceOfParenFree("  ");
    BalanceOfParenFree(", ");
    assert ")\n" == "" + ")" + "\n";
    BalanceOfClose("", "\n");
  }

  lemma {:induction false} BalanceOfQuote(s: string)
    ensures Balance(Quote(s)) == Balance(s)
  {
    BalanceOfParenFree("\"");
    Balance3("\"", s, "\"");
  }

  /** The offset tuple opens and closes one parenthesis. */
  lemma {:induction false} OffsetTupleBalanced(off: Offset)
    ensures Balance(OffsetTuple(off)) == 0
  {
    var x, y := IntToString(off.x), IntToString(off.y);
    BalanceOfParenFree(x);
    BalanceOfParenFree(y);
    BalanceOfParenFree(", ");
    assert "(" == "" + "(" + "";
    BalanceOfOpen("", "");
    assert ")" == "" + ")" + "";
    BalanceOfClose("", "");
    Balance5("(", x, ", ", y, ")");
  }

  /** The composite opens one parenthesis and its last two lines close
      two, so only a mouth layer that leaves one open can balance it. */
  lemma {:induction false} CompositeDeclBalance(c: string, name: string, basePath: string, o: string,
                             face: string, mouth: string)
    ensures Balance(CompositeDecl(c, name, basePath, o, face, mouth))
      == Balance(c) + Balance(name) + Balance(basePath) + 2 * Balance(o) + Balance(face) + Balance(mouth) - 1
  {
    HeadPieces();
    SizePiece();
    OriginPiece();
    LayerPieces();
    BalanceOfQuote(basePath);
    BalanceOfQuote(face);
    var x1 := "image " + c + " " + name + " = Composite(\n";
    Balance5("image ", c, " ", name, " = Composite(\n");
    var x2 := x1 + "  (1024, 1024),\n" + "  (0, 0), " + Quote(basePath) + ",\n";
    Balance5(x1, "  (1024, 1024),\n", "  (0, 0), ", Quote(basePath), ",\n");
    var x3 := x2 + "  " + o + ", " + Quote(face);
    Balance5(x2, "  ", o, ", ", Quote(face));
    var x4 := x3 + ",\n" + "  " + o + ", ";
    Balance5(x3, ",\n", "  ", o, ", ");
    Balance4(x4, mouth, ")\n", ")\n");
  }

  lemma SwitchPieces()
    ensures Balance("WhileSpeaking(") == 1 && Balance(", ") == 0 && Balance(" mouth ") == 0
  {
    BalanceOfParenFree(" mouth ");
    BalanceOfParenFree(", ");
    assert "WhileSpeaking(" == "WhileSpeaking" + "(" + "";
    BalanceOfOpen("WhileSpeaking", "");
  }

  /** The `WhileSpeaking` switch opens its call and leaves it open. */
  lemma {:induction false} SwitchBalance(c: string, name: string, mouth: string)
    requires ParenFree(c) && ParenFree(name) && ParenFree(mouth)
    ensures Balance("WhileSpeaking(" + Quote(c) + ", " + Quote(MouthImage(c, name)) + ", " + Quote(mouth)) == 1
  {
    SwitchPieces();
    BalanceOfParenFree(c);
    BalanceOfParenFree(name);
    BalanceOfParenFree(mouth);
    Balance3(c, " mouth ", name);
    BalanceOfQuote(c);
    BalanceOfQuote(MouthImage(c, name));
    BalanceOfQuote(mouth);
    var q, n := Quote(c), Quote(MouthImage(c, name));
    Balance5("WhileSpeaking(", q, ", ", n, ", ");
    BalanceConcat("WhileSpeaking(" + q + ", " + n + ", ", Quote(mouth));
  }

  /** The mouth layer leaves a parenthesis open exactly when the lips flap. */
  lemma {:induction false} MouthLayerBalance(c: string, e: Emotion)
    requires IsToken(c) && ParenFree(e.name) && ParenFree(e.frame0.mouth)
    ensures Balance(MouthLayer(c, e)) == if LipFlap(e) then 1 else 0
  {
    if LipFlap(e) {
      SwitchBalance(c, e.name, e.frame0.mouth);
    } else {
      BalanceOfParenFree(e.frame0.mouth);
      BalanceOfQuote(e.frame0.mouth);
    }
  }

  /** The face layer never holds a parenthesis of its own. */
  lemma {:induction false} FaceLayerBalance(c: string, e: Emotion)
    requires IsToken(c) && ParenFree(e.name) && ParenFree(e.frame0.face)
    ensures Balance(FaceLayer(c, e)) == 0
  {
    if Blink(e) {
      BalanceOfParenFree(c);
      BalanceOfParenFree(e.name);
      BalanceOfParenFree(" eyes ");
      Balance3(c, " eyes ", e.name);
    } else {
      BalanceOfParenFree(e.frame0.face);
    }
  }

  /** With parenthesis-free names and paths, the composite of a flapping
      mouth has as many closing as opening parentheses, and the composite
      of a static mouth closes one parenthesis more than it opens: its mouth
      line ends the declaration and the following line closes it again. */
  lemma {:induction false} CompositeParentheses(c: string, e: Emotion, basePath: string, off: Offset)
    requires IsToken(c) && ParenFree(e.name) && ParenFree(basePath)
    requires ParenFree(e.frame0.face) && ParenFree(e.frame0.mouth)
    ensures Balance(CompositeDecl(c, e.name, basePath, OffsetTuple(off), FaceLayer(c, e), MouthLayer(c, e)))
      == if LipFlap(e) then 0 else -1
  {
    BalanceOfParenFree(c);
    BalanceOfParenFree(e.name);
    BalanceOfParenFree(basePath);
    OffsetTupleBalanced(off);
    FaceLayerBalance(c, e);
    MouthLayerBalance(c, e);
    CompositeDeclBalance(c, e.name, basePath, OffsetTuple(off), FaceLayer(c, e), MouthLayer(c, e));
  }
}
