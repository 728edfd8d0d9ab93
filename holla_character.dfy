/**
 * The mascot of HollaCharacter.jsx: the emoji shown for a mood, with the
 * mood defaulting to "happy" when the caller passes none, and the speech
 * bubble shown only for a non-empty message. The animation is left out.
 */
module HollaCharacter {
  import opened Wrappers

  const Smiling := "\U{1F60A}"
  const StarStruck := "\U{1F929}"
  const Partying := "\U{1F973}"
  const Flexed := "\U{1F4AA}"

  /** The moods the switch names, each with its own case. */
  const Moods := ["happy", "excited", "proud", "encouraging"]

  /** The four faces the mascot can show. */
  const Emojis := [Smiling, StarStruck, Partying, Flexed]

  /** The `mood` prop after its default: an omitted mood is "happy". */
  function MoodOrDefault(mood: Option<string>): (m: string)
    ensures mood.None? ==> m == "happy"
    ensures mood.Some? ==> m == mood.value
  {
    mood.GetOr("happy")
  }

  /**
   * `getEmoji`: each named mood has its face and any other mood shows the
   * smiling face.
   */
  function GetEmoji(mood: Option<string>): (e: string)
    ensures e in Emojis
    ensures e == StarStruck <==> mood == Some("excited")
    ensures e == Partying <==> mood == Some("proud")
    ensures e == Flexed <==> mood == Some("encouraging")
    ensures e == Smiling <==> MoodOrDefault(mood) !in Moods[1..]
  {
    match MoodOrDefault(mood)
    case "happy" => Smiling
    case "excited" => StarStruck
    case "proud" => Partying
    case "encouraging" => Flexed
    case _ => Smiling
  }

  /** The mood a face stands for: the inverse of `GetEmoji` on the named moods. */
  function MoodOf(e: string): (m: string)
    requires e in Emojis
    ensures m in Moods
  {
    if e == StarStruck then "excited"
    else if e == Partying then "proud"
    else if e == Flexed then "encouraging"
    else "happy"
  }

  /** With no mood given the mascot smiles. */
  lemma DefaultMoodSmiles()
    ensures GetEmoji(None) == Smiling
    ensures GetEmoji(None) == GetEmoji(Some("happy"))
  {
  }

  /** Every face is shown for the mood it stands for. */
  lemma EmojiRoundTrip(e: string)
    requires e in Emojis
    ensures GetEmoji(Some(MoodOf(e))) == e
  {
  }

  /** A mood is recovered from its face exactly when the switch names it. */
  lemma MoodRoundTrip(m: string)
    ensures MoodOf(GetEmoji(Some(m))) == m <==> m in Moods
  {
    if m in Moods {
      assert m == Moods[0] || m == Moods[1] || m == Moods[2] || m == Moods[3];
    }
  }

  /** Distinct named moods show distinct faces. */
  lemma NamedMoodsDistinct(i: nat, j: nat)
    requires i < |Moods| && j < |Moods| && i != j
    ensures GetEmoji(Some(Moods[i])) != GetEmoji(Some(Moods[j]))
  {
    MoodRoundTrip(Moods[i]);
    MoodRoundTrip(Moods[j]);
  }

  /** `{message && ...}`: the bubble is shown, with the message, only when the message is not empty. */
  function Bubble(message: string): (b: Option<string>)
    ensures b.Some? <==> message != ""
    ensures b.Some? ==> b.value == message
  {
    if message == "" then None else Some(message)
  }
}
