/** The AI therapist's face: an expression record that follows the dominant
    emotion of each incoming emotion vector, a blink timer, and the choice of
    what to draw for eyes and mouth. */
module AIAvatar {
  import opened Common
  import opened Emotions

  datatype MouthShape = Closed | Speaking | Smiling | Concerned

  datatype AIExpression = AIExpression(
    eyeOpenness: real,
    mouthShape: MouthShape,
    eyebrowPosition: real,  // in [-1, 1]; lowered brows read as worry, raised as surprise
    headTilt: real,         // in [-1, 1]
    blinkTimer: int)

  const InitialExpression := AIExpression(1.0, Closed, 0.0, 0.0, 0)

  /** The documented ranges of the two signed fields. */
  predicate InRange(x: AIExpression)
  {
    -1.0 <= x.eyebrowPosition <= 1.0 && -1.0 <= x.headTilt <= 1.0
  }

  // ---------------------------------------------------------------------
  // Dominant emotion: `entries.reduce((a, b) => v(a) > v(b) ? a : b)`.

  /** Position i holds a maximal score, and every later position scores
      strictly less: i is the LAST maximum of ks. */
  predicate IsLastMax(e: EmotionData, ks: seq<Emotion>, i: int)
  {
    && 0 <= i < |ks|
    && (forall j :: 0 <= j < |ks| ==> e.Value(ks[j]) <= e.Value(ks[i]))
    && (forall j :: i < j < |ks| ==> e.Value(ks[j]) < e.Value(ks[i]))
  }

  /** The reduce of the source, folded from the left: the accumulator is
      replaced by the next entry unless the accumulator is strictly greater.
      The result is the position of the entry the reduce keeps. */
  function Reduce(e: EmotionData, ks: seq<Emotion>): (i: nat)
    requires |ks| > 0
    ensures IsLastMax(e, ks, i)
  {
    if |ks| == 1 then 0
    else
      var a := Reduce(e, ks[..|ks| - 1]);
      if e.Value(ks[a]) > e.Value(ks[|ks| - 1]) then a else |ks| - 1
  }

  /** The last maximum is unique, so IsLastMax pins the reduce down exactly. */
  lemma LastMaxUnique(e: EmotionData, ks: seq<Emotion>, i: int, j: int)
    requires IsLastMax(e, ks, i) && IsLastMax(e, ks, j)
    ensures i == j
  {
    assert e.Value(ks[i]) == e.Value(ks[j]);
  }

  /** The dominant emotion of a record, over its keys in declaration order
      (the entries with `timestamp` filtered out). */
  function DominantEmotion(e: EmotionData): (d: Emotion)
    ensures forall k :: e.Value(k) <= e.Value(d)
  {
    var i := Reduce(e, DeclaredOrder);
    assert forall k :: e.Value(k) <= e.Value(DeclaredOrder[i]) by {
      forall k ensures e.Value(k) <= e.Value(DeclaredOrder[i]) {
        assert DeclaredOrder[Position(k)] == k;
      }
    }
    DeclaredOrder[i]
  }

  /** The dominant emotion is the one at the last maximal position. */
  lemma DominantIsLastMaximum(e: EmotionData, i: int)
    requires IsLastMax(e, DeclaredOrder, i)
    ensures DominantEmotion(e) == DeclaredOrder[i]
  {
    LastMaxUnique(e, DeclaredOrder, i, Reduce(e, DeclaredOrder));
  }

  /** When every score is equal the reduce keeps the last key, `neutral`. */
  lemma AllEqualGivesNeutral(e: EmotionData)
    requires e.happy == e.sad == e.angry == e.fearful == e.disgusted == e.surprised == e.neutral
    ensures DominantEmotion(e) == Neutral
  {
    DominantIsLastMaximum(e, 6);
  }

  /** A tie between `happy` and `surprised` at the top goes to `surprised`,
      the later of the two. */
  lemma TieGoesToLaterKey(e: EmotionData)
    requires e.happy == e.surprised
    requires e.sad < e.happy && e.angry < e.happy && e.fearful < e.happy
    requires e.disgusted < e.happy && e.neutral < e.happy
    ensures DominantEmotion(e) == Surprised
  {
    DominantIsLastMaximum(e, 5);
  }

  // ---------------------------------------------------------------------
  // The fixed lookup from dominant emotion to the face.

  datatype Look = Look(mouthShape: MouthShape, eyebrowPosition: real, headTilt: real)

  function LookFor(d: Emotion, isSpeaking: bool): (l: Look)
    ensures -1.0 <= l.eyebrowPosition <= 1.0 && -1.0 <= l.headTilt <= 1.0
    ensures l.mouthShape == Smiling <==> d == Happy
    ensures l.mouthShape == Concerned <==> d == Sad || d == Fearful
  {
    match d
    case Happy => Look(Smiling, 0.3, 0.1)
    case Sad => Look(Concerned, -0.5, -0.2)
    case Angry => Look(Closed, -0.8, 0.0)
    case Fearful => Look(Concerned, 0.6, 0.3)
    case Surprised => Look(Speaking, 0.8, 0.0)
    case _ => Look(if isSpeaking then Speaking else Closed, 0.1, 0.0)
  }

  /** Emotions outside the table (neutral, disgusted) speak exactly when the
      avatar is speaking, with a slight brow lift and no tilt. */
  lemma DefaultLook(d: Emotion, isSpeaking: bool)
    requires d == Neutral || d == Disgusted
    ensures LookFor(d, isSpeaking) == Look(if isSpeaking then Speaking else Closed, 0.1, 0.0)
  {
  }

  /** One update: the dominant emotion's look is merged over the previous
      record; openness and blink timer are carried over. */
  function UpdateAIExpression(prev: AIExpression, e: EmotionData, isSpeaking: bool): (r: AIExpression)
    ensures r.eyeOpenness == prev.eyeOpenness && r.blinkTimer == prev.blinkTimer
    ensures InRange(r)
    ensures r.mouthShape == Smiling <==> DominantEmotion(e) == Happy
  {
    var l := LookFor(DominantEmotion(e), isSpeaking);
    prev.(mouthShape := l.mouthShape, eyebrowPosition := l.eyebrowPosition, headTilt := l.headTilt)
  }

  /** A clearly happy vector gives the smiling face (0.3 brow, 0.1 tilt). */
  lemma HappyVectorSmiles(prev: AIExpression, t: int, isSpeaking: bool)
    ensures var e := EmotionData(0.8, 0.1, 0.05, 0.02, 0.0, 0.02, 0.01, t);
            var r := UpdateAIExpression(prev, e, isSpeaking);
            r.mouthShape == Smiling && r.eyebrowPosition == 0.3 && r.headTilt == 0.1
  {
    var e := EmotionData(0.8, 0.1, 0.05, 0.02, 0.0, 0.02, 0.01, t);
    DominantIsLastMaximum(e, 0);
  }

  // ---------------------------------------------------------------------
  // Drawing decisions.

  const BlinkWindow: int := 150

  predicate IsBlinking(now: int, blinkTimer: int)
  {
    now - blinkTimer < BlinkWindow
  }

  datatype EyeDrawing = OpenEllipse | ClosedLine

  datatype MouthDrawing = SmileArc | FilledOval | FrownArc | FlatLine

  /** The mouth switch: the drawing depends on the shape alone. */
  function MouthDrawingFor(s: MouthShape): (d: MouthDrawing)
    ensures ShapeDrawn(d) == s
  {
    match s
    case Smiling => SmileArc
    case Speaking => FilledOval
    case Concerned => FrownArc
    case Closed => FlatLine
  }

  /** Reading the shape back from the drawing. */
  function ShapeDrawn(m: MouthDrawing): MouthShape
  {
    match m
    case SmileArc => Smiling
    case FilledOval => Speaking
    case FrownArc => Concerned
    case FlatLine => Closed
  }

  /** No two mouth shapes are drawn alike. */
  lemma MouthDrawingDistinguishesShapes(s: MouthShape, t: MouthShape)
    requires MouthDrawingFor(s) == MouthDrawingFor(t)
    ensures s == t
  {
    calc {
      s;
      ShapeDrawn(MouthDrawingFor(s));
      ShapeDrawn(MouthDrawingFor(t));
      t;
    }
  }

  datatype AIFace = AIFace(
    leftEye: EyeDrawing,
    rightEye: EyeDrawing,
    browOffset: real,
    browSlant: real,
    mouth: MouthDrawing,
    rotation: real)

  /** What one animation frame draws at time `now`. */
  function DrawAIAvatar(now: int, x: AIExpression): (f: AIFace)
    requires InRange(x)
    ensures f.leftEye == f.rightEye
    ensures f.leftEye == ClosedLine <==> now < x.blinkTimer + BlinkWindow
    ensures -8.0 <= f.browOffset <= 8.0 && -0.15 <= f.rotation <= 0.15
    ensures ShapeDrawn(f.mouth) == x.mouthShape
  {
    var eye := if IsBlinking(now, x.blinkTimer) then ClosedLine else OpenEllipse;
    AIFace(eye, eye, x.eyebrowPosition * 8.0, x.eyebrowPosition * 3.0,
           MouthDrawingFor(x.mouthShape), x.headTilt * 0.15)
  }

  // ---------------------------------------------------------------------
  // The component's state.

  class AvatarState {
    var expression: AIExpression

    ghost predicate Valid()
      reads this
    {
      InRange(expression)
    }

    constructor ()
      ensures Valid() && expression == InitialExpression
    {
      expression := InitialExpression;
    }

    /** The effect on `emotionData`: a null vector leaves the record alone. */
    method OnEmotionData(data: Option<EmotionData>, isSpeaking: bool)
      requires Valid()
      modifies this
      ensures Valid()
      ensures data.None? ==> expression == old(expression)
      ensures data.Some? ==> expression == UpdateAIExpression(old(expression), data.value, isSpeaking)
    {
      if data.Some? {
        expression := UpdateAIExpression(expression, data.value, isSpeaking);
      }
    }

    /** The blink interval firing at time `now`. */
    method Blink(now: int)
      requires Valid()
      modifies this
      ensures Valid()
      ensures expression == old(expression).(blinkTimer := now)
    {
      expression := expression.(blinkTimer := now);
    }
  }

  /** After a blink at time t the eyes are closed for the next 150 ms and
      open from then on, whatever else the record holds. */
  lemma BlinkWindowAfterReset(x: AIExpression, t: int, now: int)
    requires InRange(x)
    ensures var f := DrawAIAvatar(now, x.(blinkTimer := t));
            (f.leftEye == ClosedLine && f.rightEye == ClosedLine) <==> now - t < 150
  {
  }
}
