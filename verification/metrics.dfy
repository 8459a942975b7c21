/** The dashboard figures computed from the stored transcriptions: words
    transcribed, time recorded, the time typing would have taken, and the
    two averages. Durations are exact reals. */
module Metrics {

  /** The two fields of a stored `Transcription` the figures read. */
  datatype Transcription = Transcription(text: string, duration: real)

  // ---------------------------------------------------------------------
  // Word splitting

  predicate IsWord(w: string) {
    |w| > 0 && forall j :: 0 <= j < |w| ==> w[j] != ' '
  }

  /** `split(separator: " ")` continued from a word `current` already begun:
      every maximal run of non-space characters, empty pieces omitted. */
  function SplitFrom(s: string, current: string): (words: seq<string>)
    requires forall j :: 0 <= j < |current| ==> current[j] != ' '
    ensures forall i :: 0 <= i < |words| ==> IsWord(words[i])
  {
    if s == [] then
      if current == [] then [] else [current]
    else if s[0] == ' ' then
      if current == [] then SplitFrom(s[1..], []) else [current] + SplitFrom(s[1..], [])
    else
      SplitFrom(s[1..], current + [s[0]])
  }

  /** `text.split(separator: " ")`. */
  function Split(s: string): (words: seq<string>)
    ensures forall i :: 0 <= i < |words| ==> IsWord(words[i])
  {
    SplitFrom(s, [])
  }

  function WordCount(s: string): nat {
    |Split(s)|
  }

  /** The number of non-space characters followed by a space or by the end
      of the text: the number of places where a word ends. */
  function WordEnds(s: string): nat {
    if s == [] then 0
    else (if s[0] != ' ' && (|s| == 1 || s[1] == ' ') then 1 else 0) + WordEnds(s[1..])
  }

  lemma {:induction false} SplitFromCountsEnds(s: string, current: string)
    requires forall j :: 0 <= j < |current| ==> current[j] != ' '
    ensures |SplitFrom(s, current)| == WordEnds(s) + (if current != [] && (s == [] || s[0] == ' ') then 1 else 0)
  {
    if s != [] {
      if s[0] == ' ' {
        SplitFromCountsEnds(s[1..], []);
      } else {
        SplitFromCountsEnds(s[1..], current + [s[0]]);
      }
    }
  }

  /** Counting the pieces of the split is counting the places a word ends. */
  lemma WordCountIsWordEnds(s: string)
    ensures WordCount(s) == WordEnds(s)
  {
    SplitFromCountsEnds(s, []);
  }

  lemma {:induction false} WordEndsZeroIffBlank(s: string)
    ensures WordEnds(s) == 0 <==> forall i :: 0 <= i < |s| ==> s[i] == ' '
  {
    if s != [] {
      WordEndsZeroIffBlank(s[1..]);
      if forall i :: 0 <= i < |s| ==> s[i] == ' ' {
        assert forall i :: 0 <= i < |s[1..]| ==> s[1..][i] == s[i + 1];
      }
      if WordEnds(s) == 0 {
        forall i | 0 < i < |s| ensures s[i] == ' ' {
          assert s[i] == s[1..][i - 1];
        }
      }
    }
  }

  /** A text has no words exactly when it is empty or all spaces. */
  lemma WordCountZeroIffBlank(s: string)
    ensures WordCount(s) == 0 <==> forall i :: 0 <= i < |s| ==> s[i] == ' '
  {
    WordCountIsWordEnds(s);
    WordEndsZeroIffBlank(s);
  }

  lemma {:induction false} SplitFromAcrossSpace(a: string, b: string, current: string)
    requires forall j :: 0 <= j < |current| ==> current[j] != ' '
    ensures SplitFrom(a + " " + b, current) == SplitFrom(a, current) + SplitFrom(b, [])
  {
    if a == [] {
      assert a + " " + b == " " + b;
      assert (" " + b)[1..] == b;
    } else {
      assert (a + " " + b)[1..] == a[1..] + " " + b;
      if a[0] == ' ' {
        SplitFromAcrossSpace(a[1..], b, []);
      } else {
        SplitFromAcrossSpace(a[1..], b, current + [a[0]]);
      }
    }
  }

  /** Splitting at a space splits the word list there: the words of
      `a + " " + b` are the words of `a` followed by those of `b`. */
  lemma SplitAcrossSpace(a: string, b: string)
    ensures Split(a + " " + b) == Split(a) + Split(b)
  {
    SplitFromAcrossSpace(a, b, []);
  }

  /** Leading, trailing and repeated spaces do not change the count. */
  lemma ExtraSpacesDoNotCount(a: string, b: string)
    ensures WordCount(" " + a) == WordCount(a)
    ensures WordCount(a + " ") == WordCount(a)
    ensures WordCount(a + "  " + b) == WordCount(a + " " + b)
  {
    SplitAcrossSpace([], a);
    assert [] + " " + a == " " + a;
    SplitAcrossSpace(a, []);
    assert a + " " + [] == a + " ";
    SplitAcrossSpace(a, " " + b);
    assert a + " " + (" " + b) == a + "  " + b;
    SplitAcrossSpace([], b);
    assert [] + " " + b == " " + b;
    SplitAcrossSpace(a, b);
  }

  function Join(words: seq<string>): string {
    if words == [] then [] else words[0] + Join(words[1..])
  }

  /** The characters of `s` other than spaces, in order. */
  function NonSpaces(s: string): string {
    if s == [] then []
    else if s[0] == ' ' then NonSpaces(s[1..])
    else [s[0]] + NonSpaces(s[1..])
  }

  lemma {:induction false} SplitFromKeepsCharacters(s: string, current: string)
    requires forall j :: 0 <= j < |current| ==> current[j] != ' '
    ensures Join(SplitFrom(s, current)) == current + NonSpaces(s)
  {
    if s == [] {
      assert Join([current]) == current + Join([]);
    } else if s[0] == ' ' {
      SplitFromKeepsCharacters(s[1..], []);
      if current != [] {
        var rest := SplitFrom(s[1..], []);
        assert ([current] + rest)[1..] == rest;
      }
    } else {
      SplitFromKeepsCharacters(s[1..], current + [s[0]]);
      assert current + [s[0]] + NonSpaces(s[1..]) == current + ([s[0]] + NonSpaces(s[1..]));
    }
  }

  /** The words hold every non-space character of the text, in order, and
      nothing else. */
  lemma SplitKeepsCharacters(s: string)
    ensures Join(Split(s)) == NonSpaces(s)
  {
    SplitFromKeepsCharacters(s, []);
  }

  // ---------------------------------------------------------------------
  // Totals

  /** `reduce(0) { $0 + $1.text.split(separator: " ").count }`: a left fold. */
  function FoldWords(acc: nat, ts: seq<Transcription>): nat
    decreases |ts|
  {
    if ts == [] then acc else FoldWords(acc + WordCount(ts[0].text), ts[1..])
  }

  /** `reduce(0) { $0 + $1.duration }`: a left fold. */
  function FoldDurations(acc: real, ts: seq<Transcription>): real
    decreases |ts|
  {
    if ts == [] then acc else FoldDurations(acc + ts[0].duration, ts[1..])
  }

  /** The per-transcription word counts, summed from the right. */
  function SumWords(ts: seq<Transcription>): nat {
    if ts == [] then 0 else WordCount(ts[0].text) + SumWords(ts[1..])
  }

  function SumDurations(ts: seq<Transcription>): real {
    if ts == [] then 0.0 else ts[0].duration + SumDurations(ts[1..])
  }

  lemma {:induction false} FoldWordsIsSum(acc: nat, ts: seq<Transcription>)
    ensures FoldWords(acc, ts) == acc + SumWords(ts)
    decreases |ts|
  {
    if ts != [] {
      FoldWordsIsSum(acc + WordCount(ts[0].text), ts[1..]);
    }
  }

  lemma {:induction false} FoldDurationsIsSum(acc: real, ts: seq<Transcription>)
    ensures FoldDurations(acc, ts) == acc + SumDurations(ts)
    decreases |ts|
  {
    if ts != [] {
      FoldDurationsIsSum(acc + ts[0].duration, ts[1..]);
    }
  }

  lemma {:induction false} SumWordsAppend(a: seq<Transcription>, b: seq<Transcription>)
    ensures SumWords(a + b) == SumWords(a) + SumWords(b)
  {
    if a == [] {
      assert a + b == b;
    } else {
      assert (a + b)[1..] == a[1..] + b;
      SumWordsAppend(a[1..], b);
    }
  }

  lemma {:induction false} SumDurationsAppend(a: seq<Transcription>, b: seq<Transcription>)
    ensures SumDurations(a + b) == SumDurations(a) + SumDurations(b)
  {
    if a == [] {
      assert a + b == b;
    } else {
      assert (a + b)[1..] == a[1..] + b;
      SumDurationsAppend(a[1..], b);
    }
  }

  /** `totalWordsTranscribed`. */
  function TotalWordsTranscribed(ts: seq<Transcription>): (words: nat)
    ensures ts == [] ==> words == 0
    ensures words == SumWords(ts)
  {
    FoldWordsIsSum(0, ts);
    FoldWords(0, ts)
  }

  /** `totalRecordedTime`. */
  function TotalRecordedTime(ts: seq<Transcription>): (seconds: real)
    ensures ts == [] ==> seconds == 0.0
    ensures seconds == SumDurations(ts)
  {
    FoldDurationsIsSum(0.0, ts);
    FoldDurations(0.0, ts)
  }

  /** The total is the sum of the per-transcription counts, so it adds up
      over concatenated lists. */
  lemma TotalWordsAdditive(a: seq<Transcription>, b: seq<Transcription>)
    ensures TotalWordsTranscribed(a + b) == TotalWordsTranscribed(a) + TotalWordsTranscribed(b)
  {
    SumWordsAppend(a, b);
  }

  lemma TotalRecordedTimeAdditive(a: seq<Transcription>, b: seq<Transcription>)
    ensures TotalRecordedTime(a + b) == TotalRecordedTime(a) + TotalRecordedTime(b)
  {
    SumDurationsAppend(a, b);
  }

  lemma TotalWordsOfOne(t: Transcription)
    ensures TotalWordsTranscribed([t]) == WordCount(t.text)
  {
    assert [t][1..] == [];
    assert SumWords([t]) == WordCount(t.text) + SumWords([]);
  }

  // ---------------------------------------------------------------------
  // Derived figures

  const TYPING_WORDS_PER_MINUTE: real := 35.0

  /** `estimatedTypingTime`, in seconds: the words at 35 words per minute. */
  function EstimatedTypingTime(ts: seq<Transcription>): (seconds: real)
    ensures seconds * 7.0 == 12.0 * TotalWordsTranscribed(ts) as real
    ensures seconds >= 0.0
  {
    TotalWordsTranscribed(ts) as real / TYPING_WORDS_PER_MINUTE * 60.0
  }

  /** More words never take less time to type. */
  lemma TypingTimeMonotone(a: seq<Transcription>, b: seq<Transcription>)
    requires TotalWordsTranscribed(a) <= TotalWordsTranscribed(b)
    ensures EstimatedTypingTime(a) <= EstimatedTypingTime(b)
  {
  }

  /** Appending transcriptions adds their typing time. */
  lemma TypingTimeAdditive(a: seq<Transcription>, b: seq<Transcription>)
    ensures EstimatedTypingTime(a + b) == EstimatedTypingTime(a) + EstimatedTypingTime(b)
  {
    TotalWordsAdditive(a, b);
  }

  /** `averageWordsPerMinute`: zero unless some time was recorded. */
  function AverageWordsPerMinute(ts: seq<Transcription>): (wpm: real)
    ensures TotalRecordedTime(ts) <= 0.0 ==> wpm == 0.0
    ensures TotalRecordedTime(ts) > 0.0 ==>
              wpm * TotalRecordedTime(ts) == 60.0 * TotalWordsTranscribed(ts) as real && wpm >= 0.0
  {
    var time := TotalRecordedTime(ts);
    if time <= 0.0 then 0.0
    else TotalWordsTranscribed(ts) as real / (time / 60.0)
  }

  /** `averageWordsPerSession`: zero for no transcriptions. */
  function AverageWordsPerSession(ts: seq<Transcription>): (average: real)
    ensures ts == [] ==> average == 0.0
    ensures ts != [] ==> average * |ts| as real == TotalWordsTranscribed(ts) as real && average >= 0.0
  {
    if ts == [] then 0.0
    else TotalWordsTranscribed(ts) as real / |ts| as real
  }
}
