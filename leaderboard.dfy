/**
 * The leaderboard page: where the player ranks (an address comparison that
 * ignores case), one row per entry with a medal or a `#n` label and the
 * shortened address, the "Rank #k of n" line and the empty-board placeholder.
 */
module Leaderboard {
  import opened Common
  import opened JsText

  /** One `{ address, score }` entry of the board, in the order the page receives it. */
  datatype Entry = Entry(address: string, score: int)

  /** The two addresses are equal once both are lower-cased. */
  predicate SameAddress(a: string, b: string)
  {
    ToLower(a) == ToLower(b)
  }

  /** `leaderboard.findIndex(e => e.address.toLowerCase() === me.toLowerCase())`. */
  function FindMe(lb: seq<Entry>, me: string): (r: int)
    ensures -1 <= r < |lb|
    ensures 0 <= r ==> SameAddress(lb[r].address, me)
    ensures forall j :: 0 <= j < |lb| && (r == -1 || j < r) ==> !SameAddress(lb[j].address, me)
  {
    if lb == [] then -1
    else if SameAddress(lb[0].address, me) then 0
    else
      var r := FindMe(lb[1..], me);
      if r == -1 then -1 else r + 1
  }

  /** `myRank`: one past the first index holding the player's address, or 0 when it is not on the board. */
  function MyRank(lb: seq<Entry>, me: string): (k: nat)
  {
    FindMe(lb, me) + 1
  }

  /** The rank is the 1-based position of the first matching entry; 0 exactly when no entry matches. */
  lemma MyRankIsFirstMatch(lb: seq<Entry>, me: string)
    ensures MyRank(lb, me) <= |lb|
    ensures MyRank(lb, me) == 0 <==> forall j :: 0 <= j < |lb| ==> !SameAddress(lb[j].address, me)
    ensures MyRank(lb, me) > 0 ==>
      SameAddress(lb[MyRank(lb, me) - 1].address, me)
      && forall j :: 0 <= j < MyRank(lb, me) - 1 ==> !SameAddress(lb[j].address, me)
  {
  }

  /** Looking up the lower-cased address gives the same rank: the comparison ignores case on both sides. */
  lemma MyRankIgnoresCase(lb: seq<Entry>, me: string)
    ensures MyRank(lb, ToLower(me)) == MyRank(lb, me)
  {
    ToLowerIdempotent(me);
    assert forall a :: SameAddress(a, ToLower(me)) <==> SameAddress(a, me);
    FindMeRespects(lb, me, ToLower(me));
  }

  /** Two addresses with the same lower-case form find the same index. */
  lemma {:induction false} FindMeRespects(lb: seq<Entry>, me: string, me': string)
    requires forall a :: SameAddress(a, me) <==> SameAddress(a, me')
    ensures FindMe(lb, me) == FindMe(lb, me')
  {
    if lb != [] && !SameAddress(lb[0].address, me) {
      FindMeRespects(lb[1..], me, me');
    }
  }

  // ------------------------------------------------------------ row labels

  /** An entry of `RANK_STYLES`: the medal and the colours of the first three places. */
  datatype RankStyle = RankStyle(emoji: string, bg: string, text: string, border: string)

  const RANK_STYLES: map<int, RankStyle> := map[
    0 := RankStyle("\U{1F947}", "rgba(251,191,36,0.12)", "#d97706", "#fcd34d"),
    1 := RankStyle("\U{1F948}", "rgba(156,163,175,0.12)", "#6b7280", "#d1d5db"),
    2 := RankStyle("\U{1F949}", "rgba(251,146,60,0.12)", "#ea580c", "#fdba74")
  ]

  /** The rank cell of row `i`: the medal when `RANK_STYLES[i]` exists, else `#` and the 1-based position. */
  function RankLabel(i: nat): (s: string)
  {
    if i in RANK_STYLES then RANK_STYLES[i].emoji else "#" + DecimalString(i + 1)
  }

  /** The first three rows get the gold, silver and bronze medals; every later row `i` reads `#(i+1)`, and that number parses back. */
  lemma RankLabels(i: nat)
    ensures i == 0 ==> RankLabel(i) == "\U{1F947}"
    ensures i == 1 ==> RankLabel(i) == "\U{1F948}"
    ensures i == 2 ==> RankLabel(i) == "\U{1F949}"
    ensures i >= 3 ==> RankLabel(i)[0] == '#' && ParseInt(RankLabel(i)[1..]) == Some(i + 1)
  {
    if i >= 3 {
      NumberedLabel(i);
    }
  }

  lemma NumberedLabel(i: nat)
    requires i >= 3
    ensures RankLabel(i)[0] == '#' && ParseInt(RankLabel(i)[1..]) == Some(i + 1)
  {
    assert i !in RANK_STYLES;
    ParseIntDecimalString(i + 1);
    assert RankLabel(i)[1..] == DecimalString(i + 1);
  }

  /** Medal labels and numbered labels never coincide, so no two rows share a label. */
  lemma RankLabelsDistinct(i: nat, j: nat)
    requires i != j
    ensures RankLabel(i) != RankLabel(j)
  {
    var k, l := if i < 3 then i else j, if i < 3 then j else i;
    if k >= 3 {
      NumberedLabel(i);
      NumberedLabel(j);
    } else {
      MedalLabel(k);
      if l < 3 {
        MedalLabel(l);
      } else {
        NumberedLabel(l);
      }
    }
  }

  lemma MedalLabel(k: nat)
    requires k < 3
    ensures |RankLabel(k)| == 1
    ensures RankLabel(k)[0] == if k == 0 then '\U{1F947}' else if k == 1 then '\U{1F948}' else '\U{1F949}'
  {
    if k == 0 {
      assert RankLabel(0) == "\U{1F947}";
    } else if k == 1 {
      assert RankLabel(1) == "\U{1F948}";
    } else {
      assert RankLabel(2) == "\U{1F949}";
    }
  }

  // ------------------------------------------------------- address shortening

  /** `` `${a.slice(0, 6)}...${a.slice(-4)}` ``: the first six characters, three dots and the last four. */
  function ShortAddress(a: string): (r: string)
    ensures r == a[..Min(6, |a|)] + "..." + a[Max(|a| - 4, 0)..]
  {
    Slice(a, 0, 6) + "..." + SliceFrom(a, -4)
  }

  /** A full address (ten characters or more) shortens to 13 characters: its first six, `...`, its last four. */
  lemma ShortAddressShape(a: string)
    requires |a| >= 10
    ensures |ShortAddress(a)| == 13
    ensures ShortAddress(a)[..6] == a[..6]
    ensures ShortAddress(a)[6..9] == "..."
    ensures ShortAddress(a)[9..] == a[|a| - 4..]
  {
  }

  // ------------------------------------------------------------------ page

  /** What one row shows: the rank label, the short address, whether it is the player's row, and the score. */
  datatype Row = Row(rankLabel: string, short: string, isMe: bool, score: int)

  /** `leaderboard.map((entry, i) => …)`. */
  function Rows(lb: seq<Entry>, me: string): (rows: seq<Row>)
    ensures |rows| == |lb|
    ensures forall i :: 0 <= i < |lb| ==>
      rows[i] == Row(RankLabel(i), ShortAddress(lb[i].address), SameAddress(lb[i].address, me), lb[i].score)
  {
    seq(|lb|, i requires 0 <= i < |lb| =>
      Row(RankLabel(i), ShortAddress(lb[i].address), SameAddress(lb[i].address, me), lb[i].score))
  }

  /** The "Rank #k of n" line. */
  datatype RankLine = RankLine(rank: nat, outOf: nat)

  /** The parts of the page that depend on the board: the rank line, the rows and the "No scores yet" placeholder. */
  datatype Page = Page(rankLine: Option<RankLine>, rows: seq<Row>, placeholder: bool)

  function Render(lb: seq<Entry>, me: string): (p: Page)
  {
    var k := MyRank(lb, me);
    Page(if k > 0 then Some(RankLine(k, |lb|)) else None, Rows(lb, me), |lb| == 0)
  }

  /**
   * The rank line appears exactly when the player is on the board, and then
   * names their rank and the board size; the row at that rank is highlighted
   * as theirs, because both use the same comparison.
   */
  lemma RankLineMatchesRows(lb: seq<Entry>, me: string)
    ensures Render(lb, me).rankLine.Some? <==> exists j :: 0 <= j < |lb| && Render(lb, me).rows[j].isMe
    ensures Render(lb, me).rankLine.Some? ==>
      var line := Render(lb, me).rankLine.value;
      && line.outOf == |lb| && 1 <= line.rank <= |lb|
      && Render(lb, me).rows[line.rank - 1].isMe
      && forall j :: 0 <= j < line.rank - 1 ==> !Render(lb, me).rows[j].isMe
  {
    MyRankIsFirstMatch(lb, me);
    RowsHighlight(lb, me);
  }

  lemma RowsHighlight(lb: seq<Entry>, me: string)
    ensures |Render(lb, me).rows| == |lb|
    ensures forall j :: 0 <= j < |lb| ==> Render(lb, me).rows[j].isMe == SameAddress(lb[j].address, me)
  {
  }

  /** "No scores yet" is shown exactly when there are no rows, and then there is no rank line either. */
  lemma PlaceholderIffEmpty(lb: seq<Entry>, me: string)
    ensures Render(lb, me).placeholder <==> Render(lb, me).rows == []
    ensures Render(lb, me).placeholder ==> Render(lb, me).rankLine == None
  {
  }
}
