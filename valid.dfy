/**
 * The lookup tables of lib/valid.js: the recurring-donation intervals, as a set-like map and as
 * an ordered list, and the words accepted as yes/no answers.
 */
module Valid {
  /** `interval`: every known interval maps to true. */
  const Interval: map<string, bool> := map["day" := true, "week" := true, "month" := true, "year" := true]

  /** `intervals`, in order. */
  const Intervals: seq<string> := ["day", "week", "month", "year"]

  /** `bool`: the words read as an answer, each with the answer it means. */
  const Bool: map<string, bool> := map[
    "y" := true, "n" := false, "yes" := true, "no" := false, "true" := true,
    "false" := false, "t" := true, "f" := false, "on" := true, "off" := false]

  const TrueWords: set<string> := {"y", "yes", "true", "t", "on"}
  const FalseWords: set<string> := {"n", "no", "false", "f", "off"}

  /** The list and the map name the same intervals, the list without repeats, and the map sends
      each of them to true. */
  lemma IntervalsMatchInterval()
    ensures forall i, j :: 0 <= i < j < |Intervals| ==> Intervals[i] != Intervals[j]
    ensures forall name :: name in Interval <==> name in Intervals
    ensures forall name :: name in Interval ==> Interval[name]
  {
  }

  /** Looking a word up in `bool` gives true for the five yes-words, false for the five no-words,
      and nothing for any other word. */
  lemma BoolReadsAnswers(word: string)
    ensures word in TrueWords ==> word in Bool && Bool[word]
    ensures word in FalseWords ==> word in Bool && !Bool[word]
    ensures word !in TrueWords && word !in FalseWords ==> word !in Bool
  {
  }

  /** The yes-words and no-words are disjoint and are the whole of `bool`. */
  lemma BoolKeys()
    ensures Bool.Keys == TrueWords + FalseWords
    ensures TrueWords * FalseWords == {}
    ensures |Bool| == 10
  {
    assert Bool.Keys == TrueWords + FalseWords;
  }
}
