# Dialogue-runner character generator: the authoring model and the Ren'Py export

The portrait tool lets an author pick a character from the portrait catalog,
click face and mouth pictures onto the character's base image, and record
*emotions*: a name plus two captured frames, frame 0 "eye open, mouth closed"
and frame 1 "eye closed, mouth open". The emotions form a stack: the add
button pushes a placeholder `undefined_<n>`, the remove button pops the most
recent one. The export turns the selection and the emotion list into a
Ren'Py script: a two-line header, then for each emotion a `Composite` image
declaration at 1024 by 1024, an eyes sub-image that blinks when frame 1 shows
a different, non-empty face, and a mouth sub-image that flaps while the
character speaks when frame 1 shows a different, non-empty mouth. The file is
named after the character token: the typed character name with its
parentheses removed, lower-cased, and its spaces turned into underscores.

This project models that core in Dafny 4.11, in four modules:

- `Text` (text.dfy): the JavaScript string built-ins the code relies on,
  written out on `seq<char>`. `String.replace` with a string pattern removes
  the first occurrence wherever it stands, not only a prefix. `substring`
  past the end gives `""`. `toLowerCase` lowers ASCII letters. The module also
  has the regular-expression removal of `(` and `)`, `split`/`join` on one
  character, and the decimal rendering of integers inside template literals.
- `Emotions` (emotion.dfy): the `Frame` and `Emotion` values, the placeholder
  an add creates, and the `Blink` and `LipFlap` tests.
- `RenpyScript` (renpy.dfy): the character token and the exact text of the
  header, of each section and of the whole script. Lemmas state what that
  text says: the token's properties, one section per emotion in list order,
  which sub-image blocks appear, and how the parentheses of the composite
  balance.
- `Portrait` (session.dfy): the page's mutable state as a class `Session`.
  It holds `currentPortraitData`, `basePath`, `curCharId`, the typed
  character name, the part pictures on offer and the `emotions` array. Each
  handler is a method that changes only the fields it names. The export is a
  method whose loop accumulates the script and is proved equal to
  `RenpyScript.Script`.

A few things the code does as written, and which the model keeps:

- Emotion names are pasted into the script as typed
  (main.js:274, 279, 286, 298). Renaming stores the raw text (main.js:385).
  Only the character name is sanitised into a token.
- The `choice:` hold times of the blink are three fixed literals, 4.5, 3.5
  and 1.5. There is no randomness: the script is a function of the state
  (`BlinkChoices`, main.js:288-293).
- The header writes the typed character name and the pack key `curCharId`
  raw (main.js:268-269).
- `pop()` on an empty list returns `undefined`, and the code then throws when
  it reads `popped.node` (main.js:439-440). `RemoveEmotion` therefore
  requires a non-empty list.
- A static mouth leaves the composite with one `)` too many. When the lips
  do not flap, line 283 closes the declaration after the mouth path, and
  line 284 closes it again. `RenpyScript.CompositeParentheses` proves the
  count. A flapping mouth opens a `WhileSpeaking(` call, and its composite
  has equal numbers of opening and closing parentheses. The model counts
  parentheses only; it does not check how they nest.

## Model

| member | source | states |
|---|---|---|
| Text.RemoveFirst | main.js:242 | `replace(PORTRAIT_URL, "")`. Only the first occurrence of the pattern is removed, wherever it stands. Without an occurrence the string is unchanged. Otherwise the input is the result with the pattern put back at the first occurrence's index. |
| Text.RemoveFirstOfPrefixed | main.js:242 | A string that starts with the URL loses exactly that prefix. |
| Text.SubstringFrom | main.js:205 | `substring(2)`: the input is the dropped start followed by the result, and the result is `""` when the start lies past the end. |
| Text.Lower | main.js:266 | Lower-casing keeps the length and maps every character through ASCII `toLowerCase`. |
| Text.LowerChar | main.js:266 | An upper-case ASCII letter becomes its own lower-case letter, and a lowered character is never upper-case. Other characters are unchanged. Parentheses and spaces are kept as they are. |
| Text.StripParens | main.js:266 | Removing the `[()]` class leaves no parenthesis. |
| Text.StripParensCounts | main.js:266 | Removing parentheses keeps every other character, with its number of occurrences. |
| Text.Split | main.js:266 | `split(" ")` gives at least one part, and no part contains the separator. |
| Text.JoinSplit | main.js:266 | `split(" ").join("_")` is the same as replacing every space with `_`. |
| Text.SplitJoinRoundTrip | main.js:266 | Joining the parts of a split with the same separator gives back the original text. |
| Text.NatToString | main.js:362 | The decimal rendering of a length is non-empty, all digits, and has no leading zero. |
| Text.NatToStringInjective | main.js:362 | Different lengths render to different digit strings. |
| Text.IntToStringRoundTrip | main.js:277 | The rendering of an offset coordinate parses back to the same integer, negative ones included. |
| Emotions.Emotion.WithFrame | main.js:407-408 | Writing frame `i` sets that frame, keeps the other frame and keeps the name. |
| Emotions.NewEmotionNamesDistinct | main.js:362 | Placeholders created at different list lengths have different names. |
| Emotions.FlagsAreIndependent | main.js:275-276 | `blink` depends only on the two faces, and `lipflap` only on the two mouths. |
| Emotions.NoFlagsWithoutSecondPose | main.js:275-276 | A second frame that is empty, or equal to the first, animates nothing. |
| Emotions.FlagScenarios | main.js:275-276 | A fresh emotion has both flags false. `{a,x}/{a,y}` gives no blink and a lip-flap. An empty second face gives no blink. |
| RenpyScript.CharacterTokenSpec | main.js:266 | The token is the parenthesis-free, lower-cased name with every space replaced by `_`. It has no space, parenthesis or upper-case letter. Its length is the name's length minus its parentheses. |
| RenpyScript.TokenIsFixedPoint | main.js:266 | A clean token passes through the sanitizer unchanged. |
| RenpyScript.CharacterTokenIdempotent | main.js:266 | Sanitizing twice is sanitizing once. |
| RenpyScript.CharacterTokenConcat | main.js:266 | The token of a concatenation is the concatenation of the tokens. |
| RenpyScript.TokenOfVariantName | main.js:266 | The name `a (b)` gives the token of `a`, then `_`, then the token of `b`. |
| RenpyScript.CharacterTokenExample | main.js:266 | `Happy (Soft)` becomes `happy_soft`. |
| RenpyScript.FileName | main.js:110-117 | The download name is exactly the character token of the typed value followed by `.rpy`. |
| RenpyScript.ScriptSectionAt | main.js:268-306 | The script is the header, then the sections of the emotions before `k`, then emotion `k`'s section, then the sections after it. Every section uses the same token, base path and offset tuple. |
| RenpyScript.SectionsConcat | main.js:272-306 | The sections of a concatenated list are the sections of each part, in order. |
| RenpyScript.ScriptOfPush | main.js:272-306 | Adding an emotion at the end appends exactly its section to the script and leaves the earlier text unchanged. |
| RenpyScript.SubImagesAreDeclared | main.js:279-303 | The eyes block is emitted iff `blink`, and the mouth block iff `lipflap`. When emitted, each block declares exactly the sub-image name that the composite's layer refers to. |
| RenpyScript.StaticSection | main.js:279-303 | Without blink and lip-flap, a section is the composite of frame 0's face and quoted mouth, and nothing else. |
| RenpyScript.UnusedSecondFaceIsDropped | main.js:275-303 | Frame 1's face reaches the text only through the blink. |
| RenpyScript.UnusedSecondMouthIsDropped | main.js:275-303 | Frame 1's mouth reaches the text only through the lip-flap. |
| RenpyScript.FreshEmotionSection | main.js:279-306 | A placeholder that has captured nothing gets its empty paths as `""` literals and no sub-image. |
| RenpyScript.MouthOnlySection | main.js:279-303 | `{a.png,x.png}/{a.png,y.png}` gives the literal face `a.png` and a `WhileSpeaking` mouth that falls back to `x.png`. There is no eyes block. The mouth block flaps `y.png` then `x.png`. |
| RenpyScript.CompositeDeclBalance | main.js:279-284 | The fixed text of a composite closes one parenthesis more than it opens, besides what the names, paths and layers bring in. |
| RenpyScript.MouthLayerBalance | main.js:283 | The mouth layer leaves one parenthesis open exactly when the lips flap. |
| RenpyScript.CompositeParentheses | main.js:279-284 | With parenthesis-free names and paths, a flapping composite has equal numbers of opening and closing parentheses. A static one closes one parenthesis more than it opens. |
| Portrait.StripUrlOfPartUrl | main.js:205-209 | A part's address read back without the URL is the catalog path minus its first two characters. |
| Portrait.FindOption | main.js:186-187 | The option lookup finds the first catalog entry with that name. It finds nothing only when no entry has it. |
| Portrait.Session.constructor | main.js:11-16 | The page starts with nothing selected, nothing on offer and no emotions. |
| Portrait.Session.ResetPortraitData | main.js:61-66 | Clears base, offset, face and mouth, and changes nothing else. |
| Portrait.Session.DrawPortraitAndRender | main.js:242 | The base path becomes the base address without the URL, and nothing else changes. |
| Portrait.Session.LoadSelectedPortraitData | main.js:199-234 | Offers the URL form of every face and mouth part, in order. It clears face and mouth, sets base and offset, and leaves the base path as the catalog-relative base image. |
| Portrait.Session.ValidateDatalistInput | main.js:185-193 | An unlisted name clears the box and changes nothing else. A listed name records the first matching entry's key and loads that character. The emotions are untouched. |
| Portrait.Session.SelectFacePart | main.js:208-211 | A face click selects that picture's address and re-derives the base path. |
| Portrait.Session.SelectMouthPart | main.js:221-224 | A mouth click selects that picture's address and re-derives the base path. |
| Portrait.Session.AddEmotion | main.js:359-428 | Pushes exactly one emotion, `undefined_<old length>` with two empty frames. All earlier emotions are unchanged. |
| Portrait.Session.RenameEmotion | main.js:384-385 | Emotion `k` gets the raw text as its name. Its frames and all other emotions are unchanged. |
| Portrait.Session.CaptureFrame | main.js:406-408 | Frame `i` of emotion `k` gets the current face and mouth without the URL. The other frame, the name and the other emotions are unchanged. |
| Portrait.Session.RemoveEmotion | main.js:438-443 | Pops the most recently added emotion. The rest stay in insertion order. |
| Portrait.Session.GenerateRenpyScript | main.js:264-309 | Changes nothing and returns exactly the script of the current typed name, pack key, base path, offset and emotions. |
| Portrait.Session.DownloadImage | main.js:108-121 | The file is named after the character token plus `.rpy`, and its contents are the generated script. |
| Portrait.CaptureIsACopy | main.js:205-209 | Load, click face `j`, add, capture frame 0, and then click face `j2`. The captured frame still holds part `j` without its first two characters and an empty mouth: a capture is a copy. |
| Portrait.AddThreeRemoveOne | main.js:428-439 | After three adds and one remove, the first two placeholders remain in order, and the third is the one returned. |

## Left out

- Network: `fetchJson`, `populatePortraitData` and the fetch in `loadSelectedPortraitData`. The catalog entries and a character's part lists and offset are method parameters. The catch-and-log of failures is not modelled.
- The load is modelled as one synchronous step. In the page, later clicks can interleave with the awaited fetch and with the awaited image loads of `drawPortraitAndRender`. That ordering is not modelled.
- Canvas and images: `drawDialogueScreen`, `drawImageWithData`, the drawing part of `drawPortraitAndRender`, `loadImage` and `grabCurrent`. The `drawing` re-entrancy guard is also left out. Of `drawPortraitAndRender` only the assignment of `basePath` is kept.
- The DOM: the datalist and its `querySelector`, the emotion panel built in `addEmotion`, its `node` field and the `node.remove()` in `removeEmotion`, `resetPanels`, `togglePortraitPanel`, `portraitPanelToggleButton`, `id`/`qs`/`qsa`, and the localisation table.
- The object handles the handlers close over are modelled as list indices. The JavaScript closures keep a reference to the emotion object, not an index.
- An `img.src` read back is taken to be the string assigned. The browser's URL normalisation is not modelled.
- The `value` in the option selector is not CSS-escaped. A name containing `"` can make `querySelector` throw or match something else; `FindOption` compares names exactly.
- Strings are sequences of Unicode scalar values, while JavaScript indexes strings by UTF-16 code units. `substring(2)` (main.js:205, 218) drops two code units. The model drops two characters, which is the same only when the path starts with characters of the Basic Multilingual Plane, as the `./`-prefixed catalog paths do.
- `toLowerCase` is modelled on ASCII letters only. Unicode case mapping is library behaviour.
- Offsets are integers rendered in decimal. JavaScript number formatting of fractional or huge offsets is not modelled.
- The data-URL building and link click in `downloadImage` are left out: `encodeURIComponent` and the DOM event. Only the file name and the contents are kept.
- Portrait.Session.RemoveEmotion: requires a non-empty list. In the code, `pop()` on an empty list returns `undefined` and reading `popped.node` then throws (main.js:440), so this is the source's own demand on its callers; the model gives no behaviour for the empty case.
- Portrait.Session.ValidateDatalistInput: the character's data is taken as a parameter. The model does not state that it belongs to the matched key.
