/** The emotion vector pushed by the backend (and synthesised locally by the
    layout): seven scores and a timestamp. */
module Emotions {

  datatype Emotion = Happy | Sad | Angry | Fearful | Disgusted | Surprised | Neutral

  datatype EmotionData = EmotionData(
    happy: real,
    sad: real,
    angry: real,
    fearful: real,
    disgusted: real,
    surprised: real,
    neutral: real,
    timestamp: int)
  {
    /** The score stored under the given key. */
    function Value(k: Emotion): real
    {
      match k
      case Happy => happy
      case Sad => sad
      case Angry => angry
      case Fearful => fearful
      case Disgusted => disgusted
      case Surprised => surprised
      case Neutral => neutral
    }
  }

  /** The record's keys in the order the record type declares them;
      `timestamp` is not an emotion and is not among them. */
  const DeclaredOrder: seq<Emotion> := [Happy, Sad, Angry, Fearful, Disgusted, Surprised, Neutral]

  /** Where a key sits in the declaration order. */
  function Position(k: Emotion): (i: nat)
    ensures i < |DeclaredOrder| && DeclaredOrder[i] == k
  {
    match k
    case Happy => 0
    case Sad => 1
    case Angry => 2
    case Fearful => 3
    case Disgusted => 4
    case Surprised => 5
    case Neutral => 6
  }
}
