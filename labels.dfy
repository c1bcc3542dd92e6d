/** The fixed class table of the classifier: index i of the model's output
    vector names the card LabelMap[i] (lambda/app.py, `label_map`). */
module Labels {

  /** The 53 class labels, in the order the model's output vector uses.
      The handler has them as one list; here that list is the concatenation
      of one display per rank, in the same order. A single 53-element
      display is too large for the verifier to index or compare entry by
      entry, so the order is proved rank by rank (one small lemma per
      display) and joined at the 13 boundaries. */
  const LabelMap: seq<string> :=
    AceLabels
    + EightLabels
    + FiveLabels
    + FourLabels
    + JackLabels
    + JokerLabels
    + KingLabels
    + NineLabels
    + QueenLabels
    + SevenLabels
    + SixLabels
    + TenLabels
    + ThreeLabels
    + TwoLabels

  const AceLabels: seq<string> := ["ace of clubs", "ace of diamonds", "ace of hearts", "ace of spades"]
  const EightLabels: seq<string> := ["eight of clubs", "eight of diamonds", "eight of hearts", "eight of spades"]
  const FiveLabels: seq<string> := ["five of clubs", "five of diamonds", "five of hearts", "five of spades"]
  const FourLabels: seq<string> := ["four of clubs", "four of diamonds", "four of hearts", "four of spades"]
  const JackLabels: seq<string> := ["jack of clubs", "jack of diamonds", "jack of hearts", "jack of spades"]
  const JokerLabels: seq<string> := ["joker"]
  const KingLabels: seq<string> := ["king of clubs", "king of diamonds", "king of hearts", "king of spades"]
  const NineLabels: seq<string> := ["nine of clubs", "nine of diamonds", "nine of hearts", "nine of spades"]
  const QueenLabels: seq<string> := ["queen of clubs", "queen of diamonds", "queen of hearts", "queen of spades"]
  const SevenLabels: seq<string> := ["seven of clubs", "seven of diamonds", "seven of hearts", "seven of spades"]
  const SixLabels: seq<string> := ["six of clubs", "six of diamonds", "six of hearts", "six of spades"]
  const TenLabels: seq<string> := ["ten of clubs", "ten of diamonds", "ten of hearts", "ten of spades"]
  const ThreeLabels: seq<string> := ["three of clubs", "three of diamonds", "three of hearts", "three of spades"]
  const TwoLabels: seq<string> := ["two of clubs", "two of diamonds", "two of hearts", "two of spades"]

  /** Python's `<` on `str`: lexicographic order by code point, a proper
      prefix coming first. */
  predicate StrLess(a: string, b: string) {
    LessFrom(a, b, 0)
  }

  /** `a` is below `b` when both are compared from position `k` on. */
  predicate LessFrom(a: string, b: string, k: nat)
    decreases |a| - k
  {
    if k >= |a| then k < |b|
    else if k >= |b| then false
    else if a[k] != b[k] then a[k] < b[k]
    else LessFrom(a, b, k + 1)
  }

  /** Every entry is strictly below the next one. */
  ghost predicate AdjacentAscending(s: seq<string>) {
    forall i :: 0 <= i < |s| - 1 ==> StrLess(s[i], s[i + 1])
  }

  /** Every entry is strictly below every later one. */
  ghost predicate Ascending(s: seq<string>) {
    forall i, j :: 0 <= i < j < |s| ==> StrLess(s[i], s[j])
  }

  /** No label occurs twice. */
  ghost predicate Distinct(s: seq<string>) {
    forall i, j :: 0 <= i < j < |s| ==> s[i] != s[j]
  }

  lemma {:induction false} LessFromIrreflexive(a: string, k: nat)
    ensures !LessFrom(a, a, k)
    decreases |a| - k
  {
    if k < |a| {
      LessFromIrreflexive(a, k + 1);
    }
  }

  lemma {:induction false} LessFromTransitive(a: string, b: string, c: string, k: nat)
    requires LessFrom(a, b, k) && LessFrom(b, c, k)
    ensures LessFrom(a, c, k)
    decreases |a| - k
  {
    if k < |a| && k < |b| && k < |c| && a[k] == b[k] && b[k] == c[k] {
      LessFromTransitive(a, b, c, k + 1);
    }
  }

  lemma StrLessIrreflexive(a: string)
    ensures !StrLess(a, a)
  {
    LessFromIrreflexive(a, 0);
  }

  lemma StrLessTransitive(a: string, b: string, c: string)
    requires StrLess(a, b) && StrLess(b, c)
    ensures StrLess(a, c)
  {
    LessFromTransitive(a, b, c, 0);
  }

  /** Comparing neighbours suffices: the order is transitive. */
  lemma {:induction false} AdjacentToAscending(s: seq<string>)
    requires AdjacentAscending(s)
    ensures Ascending(s)
    decreases |s|
  {
    if |s| > 1 {
      var t := s[1..];
      assert AdjacentAscending(t) by {
        forall i | 0 <= i < |t| - 1 ensures StrLess(t[i], t[i + 1]) {
          assert t[i] == s[i + 1] && t[i + 1] == s[i + 2];
        }
      }
      AdjacentToAscending(t);
      forall i, j | 0 <= i < j < |s| ensures StrLess(s[i], s[j]) {
        if i == 0 {
          if j > 1 {
            assert s[1] == t[0] && s[j] == t[j - 1];
            StrLessTransitive(s[0], s[1], s[j]);
          }
        } else {
          assert s[i] == t[i - 1] && s[j] == t[j - 1];
        }
      }
    }
  }

  /** A strictly ascending table has no repeated label. */
  lemma AscendingIsDistinct(s: seq<string>)
    requires Ascending(s)
    ensures Distinct(s)
  {
    forall i, j | 0 <= i < j < |s| ensures s[i] != s[j] {
      if s[i] == s[j] {
        StrLessIrreflexive(s[i]);
      }
    }
  }

  /** Two ascending runs joined where the first ends below the second's
      start form one ascending run. */
  lemma ConcatAdjacentAscending(a: seq<string>, b: seq<string>)
    requires AdjacentAscending(a) && AdjacentAscending(b)
    requires a != [] && b != [] ==> StrLess(a[|a| - 1], b[0])
    ensures AdjacentAscending(a + b)
  {
    var c := a + b;
    forall i | 0 <= i < |c| - 1 ensures StrLess(c[i], c[i + 1]) {
      if i < |a| - 1 {
        assert c[i] == a[i] && c[i + 1] == a[i + 1];
      } else if i == |a| - 1 {
        assert c[i] == a[|a| - 1] && c[i + 1] == b[0];
      } else {
        assert c[i] == b[i - |a|] && c[i + 1] == b[i - |a| + 1];
      }
    }
  }

  lemma AceLabelsAscending()
    ensures AdjacentAscending(AceLabels)
  {
    assert StrLess(AceLabels[0], AceLabels[1]);
    assert StrLess(AceLabels[1], AceLabels[2]);
    assert StrLess(AceLabels[2], AceLabels[3]);
  }

  lemma EightLabelsAscending()
    ensures AdjacentAscending(EightLabels)
  {
    assert StrLess(EightLabels[0], EightLabels[1]);
    assert StrLess(EightLabels[1], EightLabels[2]);
    assert StrLess(EightLabels[2], EightLabels[3]);
  }

  lemma FiveLabelsAscending()
    ensures AdjacentAscending(FiveLabels)
  {
    assert StrLess(FiveLabels[0], FiveLabels[1]);
    assert StrLess(FiveLabels[1], FiveLabels[2]);
    assert StrLess(FiveLabels[2], FiveLabels[3]);
  }

  lemma FourLabelsAscending()
    ensures AdjacentAscending(FourLabels)
  {
    assert StrLess(FourLabels[0], FourLabels[1]);
    assert StrLess(FourLabels[1], FourLabels[2]);
    assert StrLess(FourLabels[2], FourLabels[3]);
  }

  lemma JackLabelsAscending()
    ensures AdjacentAscending(JackLabels)
  {
    assert StrLess(JackLabels[0], JackLabels[1]);
    assert StrLess(JackLabels[1], JackLabels[2]);
    assert StrLess(JackLabels[2], JackLabels[3]);
  }

  lemma JokerLabelsAscending()
    ensures AdjacentAscending(JokerLabels)
  {
  }

  lemma KingLabelsAscending()
    ensures AdjacentAscending(KingLabels)
  {
    assert StrLess(KingLabels[0], KingLabels[1]);
    assert StrLess(KingLabels[1], KingLabels[2]);
    assert StrLess(KingLabels[2], KingLabels[3]);
  }

  lemma NineLabelsAscending()
    ensures AdjacentAscending(NineLabels)
  {
    assert StrLess(NineLabels[0], NineLabels[1]);
    assert StrLess(NineLabels[1], NineLabels[2]);
    assert StrLess(NineLabels[2], NineLabels[3]);
  }

  lemma QueenLabelsAscending()
    ensures AdjacentAscending(QueenLabels)
  {
    assert StrLess(QueenLabels[0], QueenLabels[1]);
    assert StrLess(QueenLabels[1], QueenLabels[2]);
    assert StrLess(QueenLabels[2], QueenLabels[3]);
  }

  lemma SevenLabelsAscending()
    ensures AdjacentAscending(SevenLabels)
  {
    assert StrLess(SevenLabels[0], SevenLabels[1]);
    assert StrLess(SevenLabels[1], SevenLabels[2]);
    assert StrLess(SevenLabels[2], SevenLabels[3]);
  }

  lemma SixLabelsAscending()
    ensures AdjacentAscending(SixLabels)
  {
    assert StrLess(SixLabels[0], SixLabels[1]);
    assert StrLess(SixLabels[1], SixLabels[2]);
    assert StrLess(SixLabels[2], SixLabels[3]);
  }

  lemma TenLabelsAscending()
    ensures AdjacentAscending(TenLabels)
  {
    assert StrLess(TenLabels[0], TenLabels[1]);
    assert StrLess(TenLabels[1], TenLabels[2]);
    assert StrLess(TenLabels[2], TenLabels[3]);
  }

  lemma ThreeLabelsAscending()
    ensures AdjacentAscending(ThreeLabels)
  {
    assert StrLess(ThreeLabels[0], ThreeLabels[1]);
    assert StrLess(ThreeLabels[1], ThreeLabels[2]);
    assert StrLess(ThreeLabels[2], ThreeLabels[3]);
  }

  lemma TwoLabelsAscending()
    ensures AdjacentAscending(TwoLabels)
  {
    assert StrLess(TwoLabels[0], TwoLabels[1]);
    assert StrLess(TwoLabels[1], TwoLabels[2]);
    assert StrLess(TwoLabels[2], TwoLabels[3]);
  }

  lemma LabelMapAdjacentAscending()
    ensures AdjacentAscending(LabelMap)
  {
    AceLabelsAscending();
    EightLabelsAscending();
    assert StrLess("ace of spades", "eight of clubs");
    ConcatAdjacentAscending(AceLabels, EightLabels);
    FiveLabelsAscending();
    assert StrLess("eight of spades", "five of clubs");
    ConcatAdjacentAscending(AceLabels + EightLabels, FiveLabels);
    FourLabelsAscending();
    assert StrLess("five of spades", "four of clubs");
    ConcatAdjacentAscending(AceLabels + EightLabels + FiveLabels, FourLabels);
    JackLabelsAscending();
    assert StrLess("four of spades", "jack of clubs");
    ConcatAdjacentAscending(AceLabels + EightLabels + FiveLabels + FourLabels, JackLabels);
    JokerLabelsAscending();
    assert StrLess("jack of spades", "joker");
    ConcatAdjacentAscending(AceLabels + EightLabels + FiveLabels + FourLabels + JackLabels, JokerLabels);
    KingLabelsAscending();
    assert StrLess("joker", "king of clubs");
    ConcatAdjacentAscending(AceLabels + EightLabels + FiveLabels + FourLabels + JackLabels + JokerLabels, KingLabels);
    NineLabelsAscending();
    assert StrLess("king of spades", "nine of clubs");
    ConcatAdjacentAscending(AceLabels + EightLabels + FiveLabels + FourLabels + JackLabels + JokerLabels + KingLabels, NineLabels);
    QueenLabelsAscending();
    assert StrLess("nine of spades", "queen of clubs");
    ConcatAdjacentAscending(AceLabels + EightLabels + FiveLabels + FourLabels + JackLabels + JokerLabels + KingLabels + NineLabels, QueenLabels);
    SevenLabelsAscending();
    assert StrLess("queen of spades", "seven of clubs");
    ConcatAdjacentAscending(AceLabels + EightLabels + FiveLabels + FourLabels + JackLabels + JokerLabels + KingLabels + NineLabels + QueenLabels, SevenLabels);
    SixLabelsAscending();
    assert StrLess("seven of spades", "six of clubs");
    ConcatAdjacentAscending(AceLabels + EightLabels + FiveLabels + FourLabels + JackLabels + JokerLabels + KingLabels + NineLabels + QueenLabels + SevenLabels, SixLabels);
    TenLabelsAscending();
    assert StrLess("six of spades", "ten of clubs");
    ConcatAdjacentAscending(AceLabels + EightLabels + FiveLabels + FourLabels + JackLabels + JokerLabels + KingLabels + NineLabels + QueenLabels + SevenLabels + SixLabels, TenLabels);
    ThreeLabelsAscending();
    assert StrLess("ten of spades", "three of clubs");
    ConcatAdjacentAscending(AceLabels + EightLabels + FiveLabels + FourLabels + JackLabels + JokerLabels + KingLabels + NineLabels + QueenLabels + SevenLabels + SixLabels + TenLabels, ThreeLabels);
    TwoLabelsAscending();
    assert StrLess("three of spades", "two of clubs");
    ConcatAdjacentAscending(AceLabels + EightLabels + FiveLabels + FourLabels + JackLabels + JokerLabels + KingLabels + NineLabels + QueenLabels + SevenLabels + SixLabels + TenLabels + ThreeLabels, TwoLabels);
  }

  /** The class table has 53 distinct labels in ascending alphabetical order
      (52 cards and the joker); index 2 is the ace of hearts. */
  lemma LabelMapFacts()
    ensures |LabelMap| == 53
    ensures Ascending(LabelMap) && Distinct(LabelMap)
    ensures LabelMap[2] == "ace of hearts" && LabelMap[20] == "joker"
  {
    LabelMapAdjacentAscending();
    AdjacentToAscending(LabelMap);
    AscendingIsDistinct(LabelMap);
  }
}
