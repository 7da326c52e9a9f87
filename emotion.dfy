/** The emotion records the author builds: a name and exactly two captured
    frames, frame 0 being "eye open, mouth closed" and frame 1 "eye closed,
    mouth open". A frame holds catalog-relative face and mouth paths, either
    of which may be empty. */
module Emotions {
  import opened Text

  datatype Frame = Frame(face: string, mouth: string)

  datatype Emotion = Emotion(name: string, frame0: Frame, frame1: Frame) {

    /** `frames[i]` for one of the two frame slots. */
    function FrameAt(i: nat): Frame
      requires i < 2
    {
      if i == 0 then frame0 else frame1
    }

    /** The emotion with `frames[i]` overwritten and everything else kept. */
    function WithFrame(i: nat, f: Frame): (r: Emotion)
      requires i < 2
      ensures r.FrameAt(i) == f
      ensures r.FrameAt(1 - i) == FrameAt(1 - i)
      ensures r.name == name
    {
      if i == 0 then this.(frame0 := f) else this.(frame1 := f)
    }
  }

  const EmptyFrame := Frame("", "")

  /** The record `addEmotion` creates when the list holds `n` emotions:
      placeholder name `undefined_<n>` and two empty frames. */
  function NewEmotion(n: nat): Emotion {
    Emotion("undefined_" + NatToString(n), EmptyFrame, EmptyFrame)
  }

  /** Placeholders created at different list lengths have different names. */
  lemma {:induction false} NewEmotionNamesDistinct(m: nat, n: nat)
    requires m != n
    ensures NewEmotion(m).name != NewEmotion(n).name
  {
    var p := "undefined_";
    NatToStringInjective(m, n);
    var a, b := NewEmotion(m).name, NewEmotion(n).name;
    assert a[|p|..] == NatToString(m) && b[|p|..] == NatToString(n);
  }

  /** The eyes animate when the second frame shows a face that differs from the first. */
  predicate Blink(e: Emotion) {
    e.frame1.face != e.frame0.face && e.frame1.face != ""
  }

  /** The mouth flaps when the second frame shows a mouth that differs from the first. */
  predicate LipFlap(e: Emotion) {
    e.frame1.mouth != e.frame0.mouth && e.frame1.mouth != ""
  }

  /** Blink looks only at the faces and lip-flap only at the mouths. */
  lemma {:induction false} FlagsAreIndependent(e: Emotion, face0: string, face1: string, mouth0: string, mouth1: string)
    ensures Blink(e.(frame0 := e.frame0.(mouth := mouth0), frame1 := e.frame1.(mouth := mouth1))) == Blink(e)
    ensures LipFlap(e.(frame0 := e.frame0.(face := face0), frame1 := e.frame1.(face := face1))) == LipFlap(e)
  {
  }

  /** Animation needs a non-empty second pose: a frame pair whose second
      frame is empty, or equal to the first, animates nothing. */
  lemma {:induction false} NoFlagsWithoutSecondPose(e: Emotion)
    requires e.frame1 == EmptyFrame || e.frame1 == e.frame0
    ensures !Blink(e) && !LipFlap(e)
  {
  }

  /** The worked cases: a fresh emotion animates nothing; an empty second
      face stops the blink; a changed mouth under an unchanged face flaps
      the lips only. */
  lemma FlagScenarios()
    ensures !Blink(NewEmotion(0)) && !LipFlap(NewEmotion(0))
    ensures var e := Emotion("e", Frame("a.png", "x.png"), Frame("a.png", "y.png"));
      !Blink(e) && LipFlap(e)
    ensures var e := Emotion("e", Frame("a.png", "x.png"), Frame("", "x.png"));
      !Blink(e) && !LipFlap(e)
  {
  }
}
