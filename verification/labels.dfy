/** The three sentiment labels shared by the classifier, the trade log and
    the trade replay, compared as exact strings everywhere in the scripts. */
module Labels {

  const Positive: string := "POSITIVE"
  const Negative: string := "NEGATIVE"
  const Neutral: string := "NEUTRAL"

  /** The valid replies, in the order the classifier's fallback tries them. */
  const Valid: seq<string> := [Positive, Negative, Neutral]
}
