/** The description shown on an event card (components/common/event-card.tsx):
    at most 20 space-separated pieces, with "..." when cut, and
    "No description" when there is none. */
module EventCard {
  import opened Common
  import opened Text

  const MaxWords: nat := 20

  /** `s.split(" ")`. */
  function Words(s: string): seq<string> {
    Split(s, ' ')
  }

  /** `truncatedDescription`. */
  function Truncate(description: Option<string>): string {
    if description.None? || description.value == "" then "No description"
    else if |Words(description.value)| > MaxWords then Join(Words(description.value)[..MaxWords], ' ') + "..."
    else description.value
  }

  /** No description reads "No description"; up to 20 pieces are shown as
      they are; more are cut to a proper prefix of the text that holds the
      first 20 pieces, followed by "...". */
  lemma {:induction false} TruncateCorrect(description: Option<string>)
    ensures description.None? || description == Some("") ==> Truncate(description) == "No description"
    ensures description.Some? && description.value != "" && |Words(description.value)| <= MaxWords ==>
              Truncate(description) == description.value
    ensures description.Some? && |Words(description.value)| > MaxWords ==>
              exists m :: 0 <= m < |description.value|
                && Truncate(description) == description.value[..m] + "..."
                && Words(description.value[..m]) == Words(description.value)[..MaxWords]
  {
    if description.Some? && |Words(description.value)| > MaxWords {
      var d := description.value;
      var pieces := Words(d);
      var head := Join(pieces[..MaxWords], ' ');
      JoinSplit(d, ' ');
      JoinSplitsAt(pieces, MaxWords, ' ');
      var m := |head|;
      assert d[..m] == head;
      SplitPiecesAreFree(d, ' ');
      SplitJoin(pieces[..MaxWords], ' ');
    }
  }

  /** Two space-free words joined by one space split into two pieces. */
  lemma {:induction false} TwoWords(a: string, b: string)
    requires Free(a, ' ') && Free(b, ' ')
    ensures |Words(a + " " + b)| == 2
  {
    SplitLeadingWord(a, b, ' ');
    SplitWord(b, ' ');
  }

  /** A cut description has exactly 20 pieces. */
  lemma {:induction false} CutHasMaxWords(d: string)
    requires |Words(d)| > MaxWords
    ensures |Words(Join(Words(d)[..MaxWords], ' ') + "...")| == MaxWords
  {
    var pieces := Words(d)[..MaxWords];
    SplitPiecesAreFree(d, ' ');
    JoinExtendLast(pieces, "...", ' ');
    var ext := pieces[..MaxWords - 1] + [pieces[MaxWords - 1] + "..."];
    assert forall i :: 0 <= i < |ext| ==> Free(ext[i], ' ');
    SplitJoin(ext, ' ');
  }

  /** Truncating an already truncated description changes nothing. */
  lemma {:induction false} TruncateIdempotent(description: Option<string>)
    ensures Truncate(Some(Truncate(description))) == Truncate(description)
  {
    if description.None? || description.value == "" {
      var no, word := "No", "description";
      assert Free(no, ' ') && Free(word, ' ');
      assert no + " " + word == "No description";
      TwoWords(no, word);
    } else if |Words(description.value)| > MaxWords {
      CutHasMaxWords(description.value);
    }
  }
}
