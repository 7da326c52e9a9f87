/** The page's mutable state and the handlers that change it: the current
    portrait selection, the base path derived from it, the character chosen
    in the list, the part pictures on offer, and the list of emotions that
    the add and remove buttons use as a stack. Fetching data, drawing and the
    DOM are outside; what they hand over comes in as parameters. */
module Portrait {
  import opened Text
  import opened Emotions
  import opened RenpyScript

  const PORTRAIT_URL := "https://dlportraits.space/"

  /** One entry of the character list: the catalog key and the English name
      shown as the option's value. */
  datatype CatalogEntry = CatalogEntry(id: string, name: string)

  /** What `portrait_output/<id>/data.json` describes for one character. */
  datatype PortraitData = PortraitData(faceParts: seq<string>, mouthParts: seq<string>, offset: Offset)

  /** The address of a part picture: the catalog paths start with `./`,
      which `substring(2)` drops before the URL is prepended. */
  function PartUrl(part: string): string {
    PORTRAIT_URL + SubstringFrom(part, 2)
  }

  /** The catalog-relative form of an address: the URL removed with
      `replace(PORTRAIT_URL, "")`. */
  function StripUrl(s: string): string {
    RemoveFirst(s, PORTRAIT_URL)
  }

  function BaseRelative(charId: string): string {
    "portrait_output/" + charId + "/" + charId + "_base.png"
  }

  /** Choosing a part and reading it back relative to the catalog gives the
      part's path without its leading two characters. */
  lemma {:induction false} StripUrlOfPartUrl(part: string)
    ensures StripUrl(PartUrl(part)) == SubstringFrom(part, 2)
  {
    RemoveFirstOfPrefixed(PORTRAIT_URL, SubstringFrom(part, 2));
  }

  /** Nothing selected reads back as nothing. */
  lemma StripUrlOfEmpty()
    ensures StripUrl("") == ""
  {
    RemoveFirstOfEmpty(PORTRAIT_URL);
  }

  /** The option `#portraitList option[value="<value>"]` finds: the first
      entry whose name is `value`, or none. */
  function FindOption(catalog: seq<CatalogEntry>, value: string): (r: Option<nat>)
    ensures r.Some? ==> r.value < |catalog| && catalog[r.value].name == value
                        && forall j :: 0 <= j < r.value ==> catalog[j].name != value
    ensures r.None? ==> forall j :: 0 <= j < |catalog| ==> catalog[j].name != value
    decreases |catalog|
  {
    if catalog == [] then None
    else if catalog[0].name == value then Some(0)
    else match FindOption(catalog[1..], value)
      case None => None
      case Some(k) =>
        assert forall j :: 1 <= j < k + 1 ==> catalog[j] == catalog[1..][j - 1];
        Some(k + 1)
  }

  class Session {
    // currentPortraitData
    var base: string
    var offset: Offset
    var face: string
    var mouth: string
    // module variables
    var basePath: string
    var curCharId: string
    /** The text in the character input box. */
    var characterInput: string
    /** The sources of the face and mouth pictures on offer. */
    var faceOptions: seq<string>
    var mouthOptions: seq<string>
    var emotions: seq<Emotion>

    /** The state after `init`: nothing chosen, nothing on offer, no emotions. */
    constructor ()
      ensures base == "" && offset == Offset(0, 0) && face == "" && mouth == ""
      ensures basePath == "" && curCharId == "" && characterInput == ""
      ensures faceOptions == [] && mouthOptions == [] && emotions == []
    {
      base, offset, face, mouth := "", Offset(0, 0), "", "";
      basePath, curCharId, characterInput := "", "", "";
      faceOptions, mouthOptions, emotions := [], [], [];
    }

    /** `resetPortraitData`: clears the selection; the derived base path is
        left as it was until the next render. */
    method ResetPortraitData()
      modifies this`base, this`offset, this`face, this`mouth
      ensures base == "" && offset == Offset(0, 0) && face == "" && mouth == ""
    {
      base := "";
      offset := Offset(0, 0);
      face := "";
      mouth := "";
    }

    /** The state part of `drawPortraitAndRender`: the base path is
        recomputed from the selected base image. */
    method DrawPortraitAndRender()
      modifies this`basePath
      ensures basePath == StripUrl(base)
    {
      basePath := RemoveFirst(base, PORTRAIT_URL);
    }

    /** `loadSelectedPortraitData` once the character's data has arrived:
        the part pictures are offered anew, face and mouth are cleared,
        base and offset are set, and the preview is rendered. */
    method LoadSelectedPortraitData(charId: string, data: PortraitData)
      modifies this`faceOptions, this`mouthOptions, this`face, this`mouth, this`base,
               this`offset, this`basePath
      ensures |faceOptions| == |data.faceParts|
      ensures forall i :: 0 <= i < |faceOptions| ==> faceOptions[i] == PartUrl(data.faceParts[i])
      ensures |mouthOptions| == |data.mouthParts|
      ensures forall i :: 0 <= i < |mouthOptions| ==> mouthOptions[i] == PartUrl(data.mouthParts[i])
      ensures face == "" && mouth == ""
      ensures base == PORTRAIT_URL + BaseRelative(charId) && offset == data.offset
      ensures basePath == BaseRelative(charId)
    {
      var faces := [];
      for i := 0 to |data.faceParts|
        invariant |faces| == i
        invariant forall k :: 0 <= k < i ==> faces[k] == PartUrl(data.faceParts[k])
      {
        faces := faces + [PartUrl(data.faceParts[i])];
      }
      var mouths := [];
      for i := 0 to |data.mouthParts|
        invariant |mouths| == i
        invariant forall k :: 0 <= k < i ==> mouths[k] == PartUrl(data.mouthParts[k])
      {
        mouths := mouths + [PartUrl(data.mouthParts[i])];
      }
      faceOptions, mouthOptions := faces, mouths;
      face := "";
      mouth := "";
      base := PORTRAIT_URL + BaseRelative(charId);
      offset := data.offset;
      DrawPortraitAndRender();
      RemoveFirstOfPrefixed(PORTRAIT_URL, BaseRelative(charId));
    }

    /** `validateDatalistInput` after the user typed `value`: a name that is
        not in the list clears the box; a listed name records its catalog key
        and loads that character, with `data` being what the catalog returns
        for it. */
    method ValidateDatalistInput(value: string, catalog: seq<CatalogEntry>, data: PortraitData)
      modifies this
      ensures FindOption(catalog, value).None? ==>
        characterInput == "" && curCharId == old(curCharId)
        && base == old(base) && offset == old(offset) && face == old(face) && mouth == old(mouth)
        && basePath == old(basePath)
        && faceOptions == old(faceOptions) && mouthOptions == old(mouthOptions)
      ensures FindOption(catalog, value).Some? ==>
        var id := catalog[FindOption(catalog, value).value].id;
        characterInput == value && curCharId == id
        && base == PORTRAIT_URL + BaseRelative(id) && offset == data.offset
        && face == "" && mouth == "" && basePath == BaseRelative(id)
        && |faceOptions| == |data.faceParts| && |mouthOptions| == |data.mouthParts|
        && (forall i :: 0 <= i < |faceOptions| ==> faceOptions[i] == PartUrl(data.faceParts[i]))
        && (forall i :: 0 <= i < |mouthOptions| ==> mouthOptions[i] == PartUrl(data.mouthParts[i]))
      ensures emotions == old(emotions)
    {
      characterInput := value;
      var option := FindOption(catalog, value);
      if option.None? {
        characterInput := "";
      } else {
        curCharId := catalog[option.value].id;
        LoadSelectedPortraitData(curCharId, data);
      }
    }

    /** The click handler of face picture `k`. */
    method SelectFacePart(k: nat)
      requires k < |faceOptions|
      modifies this`face, this`basePath
      ensures face == faceOptions[k]
      ensures basePath == StripUrl(base)
    {
      face := faceOptions[k];
      DrawPortraitAndRender();
    }

    /** The click handler of mouth picture `k`. */
    method SelectMouthPart(k: nat)
      requires k < |mouthOptions|
      modifies this`mouth, this`basePath
      ensures mouth == mouthOptions[k]
      ensures basePath == StripUrl(base)
    {
      mouth := mouthOptions[k];
      DrawPortraitAndRender();
    }

    /** `addEmotion` without its panel: one placeholder pushed on the end. */
    method AddEmotion()
      modifies this`emotions
      ensures emotions == old(emotions) + [NewEmotion(|old(emotions)|)]
    {
      var newEmotion := Emotion("undefined_" + NatToString(|emotions|), Frame("", ""), Frame("", ""));
      emotions := emotions + [newEmotion];
    }

    /** The name box of emotion `k`: the raw text becomes its name. */
    method RenameEmotion(k: nat, name: string)
      requires k < |emotions|
      modifies this`emotions
      ensures |emotions| == |old(emotions)|
      ensures emotions[k] == old(emotions[k]).(name := name)
      ensures forall j :: 0 <= j < |emotions| && j != k ==> emotions[j] == old(emotions[j])
    {
      emotions := emotions[k := emotions[k].(name := name)];
    }

    /** The picture of frame `i` of emotion `k`: the current face and mouth,
        made catalog-relative, are copied into that frame. */
    method CaptureFrame(k: nat, i: nat)
      requires k < |emotions| && i < 2
      modifies this`emotions
      ensures |emotions| == |old(emotions)|
      ensures emotions[k].FrameAt(i) == Frame(StripUrl(face), StripUrl(mouth))
      ensures emotions[k].FrameAt(1 - i) == old(emotions[k]).FrameAt(1 - i)
      ensures emotions[k].name == old(emotions[k]).name
      ensures forall j :: 0 <= j < |emotions| && j != k ==> emotions[j] == old(emotions[j])
    {
      var f := Frame(RemoveFirst(face, PORTRAIT_URL), RemoveFirst(mouth, PORTRAIT_URL));
      emotions := emotions[k := emotions[k].WithFrame(i, f)];
    }

    /** `removeEmotion`: the most recently added emotion is popped. The
        source dereferences the popped value, so the list must not be empty. */
    method RemoveEmotion() returns (popped: Emotion)
      requires |emotions| > 0
      modifies this`emotions
      ensures old(emotions) == emotions + [popped]
    {
      popped := emotions[|emotions| - 1];
      emotions := emotions[..|emotions| - 1];
    }

    /** `generateRenpyScript`: reads the selection and the emotions, changes
        nothing, and returns the header followed by each emotion's section. */
    method GenerateRenpyScript() returns (result: string)
      ensures result == Script(characterInput, curCharId, basePath, offset, emotions)
    {
      var characterName := CharacterToken(characterInput);
      var header := Header(characterInput, curCharId);
      result := header;
      var offsetTuple := OffsetTuple(offset);
      SectionsOfNone(header, characterName, basePath, offsetTuple, emotions);
      for i := 0 to |emotions|
        invariant result == header + Sections(characterName, basePath, offsetTuple, emotions[..i])
      {
        SectionsStep(header, characterName, basePath, offsetTuple, emotions, i);
        result := result + Section(characterName, emotions[i], basePath, offsetTuple);
      }
      assert emotions[..|emotions|] == emotions;
    }

    /** `downloadImage`: the file is named after the character token and
        holds the generated script. */
    method DownloadImage() returns (fileName: string, contents: string)
      ensures fileName == FileName(characterInput)
      ensures contents == Script(characterInput, curCharId, basePath, offset, emotions)
    {
      var characterName := CharacterToken(characterInput);
      contents := GenerateRenpyScript();
      fileName := characterName + ".rpy";
    }
  }

  // -----------------------------------------------------------------------
  // Sessions played through

  /** A captured frame is a copy: choosing face part `j`, capturing it into
      frame 0 of a new emotion, then choosing part `j2` leaves the frame
      holding part `j` without its leading `./`, and an empty mouth. */
  method CaptureIsACopy(charId: string, data: PortraitData, j: nat, j2: nat)
    returns (captured: Frame, later: string)
    requires j < |data.faceParts| && j2 < |data.faceParts|
    ensures captured == Frame(SubstringFrom(data.faceParts[j], 2), "")
    ensures later == PartUrl(data.faceParts[j2])
  {
    var s := new Session();
    s.LoadSelectedPortraitData(charId, data);
    s.SelectFacePart(j);
    s.AddEmotion();
    s.CaptureFrame(0, 0);
    s.SelectFacePart(j2);
    captured := s.emotions[0].frame0;
    later := s.face;
    StripUrlOfPartUrl(data.faceParts[j]);
    StripUrlOfEmpty();
  }

  /** Stack discipline: after three adds and one remove, the first two
      placeholders remain in order and the third is the one removed. */
  method AddThreeRemoveOne() returns (remaining: seq<Emotion>, removed: Emotion)
    ensures remaining == [NewEmotion(0), NewEmotion(1)]
    ensures removed == NewEmotion(2)
  {
    var s := new Session();
    s.AddEmotion();
    s.AddEmotion();
    s.AddEmotion();
    assert s.emotions == [NewEmotion(0), NewEmotion(1), NewEmotion(2)];
    removed := s.RemoveEmotion();
    remaining := s.emotions;
    assert (remaining + [removed])[2] == removed;
    assert remaining == (remaining + [removed])[..2];
  }
}
