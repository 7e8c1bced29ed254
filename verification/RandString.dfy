/** RandString (pkg/util/util.go): rejection sampling of letters from 6-bit groups, ten to each
    63-bit draw, proved to refine "the first n acceptable groups of the stream". */
module RandString {

  type draw = x: int | 0 <= x < 0x8000_0000_0000_0000

  const LETTER_COUNT := 36

  /** The digits, then the small letters. */
  function Letter(i: nat): char
    requires i < LETTER_COUNT
  {
    if i < 10 then ('0' as int + i) as char else ('a' as int + (i - 10)) as char
  }

  const GROUPS_PER_DRAW := 10

  /** x without its r lowest 6-bit groups. */
  function Shift(x: nat, r: nat): nat {
    if r == 0 then x else Shift(x, r - 1) / 64
  }

  /** The k-th group of the draws from `first` on: low groups first, ten from each draw. */
  function Group(stream: nat -> draw, first: nat, k: nat): nat
    decreases k
  {
    if k < GROUPS_PER_DRAW then Shift(stream(first), k) % 64
    else Group(stream, first + 1, k - GROUPS_PER_DRAW)
  }

  /** The acceptable ones among the first k groups. */
  function Accepted(stream: nat -> draw, first: nat, k: nat): seq<int> {
    if k == 0 then []
    else
      var before, group := Accepted(stream, first, k - 1), Group(stream, first, k - 1);
      if group < LETTER_COUNT then before + [group] else before
  }

  function Pow64(r: nat): nat {
    if r == 0 then 1 else 64 * Pow64(r - 1)
  }

  /** The number whose base-64 digits, lowest first, are the given groups. */
  function FromGroups(x: nat, r: nat): nat {
    if r == 0 then 0 else FromGroups(x, r - 1) + Pow64(r - 1) * (Shift(x, r - 1) % 64)
  }

  lemma CarryGroup(p: nat, q: nat, m: nat)
    ensures p * m + (64 * p) * q == p * (64 * q + m)
  {
  }

  /** The groups of a draw are its base-64 digits: with what is shifted out they give the draw back. */
  lemma {:induction false} GroupsAreDigits(x: nat, r: nat)
    ensures FromGroups(x, r) + Pow64(r) * Shift(x, r) == x
  {
    if r > 0 {
      GroupsAreDigits(x, r - 1);
      CarryGroup(Pow64(r - 1), Shift(x, r - 1) / 64, Shift(x, r - 1) % 64);
    }
  }

  lemma Multiple(d: int, k: int)
    requires d >= 0
    ensures (k >= 1 ==> d * k >= d) && (k <= -1 ==> d * k <= -d)
  {
    if k >= 1 {
      assert d * k == d + d * (k - 1);
    } else if k <= -1 {
      assert d * k == -d + d * (k + 1);
    }
  }

  lemma DivUnique(x: nat, d: nat, q: nat, m: nat)
    requires x == d * q + m && m < d
    ensures x / d == q
  {
    Multiple(d, x / d - q);
    assert d * (x / d - q) == d * (x / d) - d * q;
  }

  lemma Regrouped(x: nat, p: nat, u: nat, v: nat, m: nat)
    requires x == p * (64 * u + v) + m && v <= 63 && m < p
    ensures x == (64 * p) * u + (p * v + m) && p * v + m < 64 * p
  {
    CarryGroup(p, u, v);
    Multiple(p, 64 - v);
    assert p * (64 - v) == 64 * p - p * v;
  }

  lemma ShiftNext(x: nat, p: nat)
    requires p > 0
    ensures x / p / 64 == x / (64 * p)
  {
    var u, v, m := x / p / 64, x / p % 64, x % p;
    Regrouped(x, p, u, v, m);
    DivUnique(x, 64 * p, u, p * v + m);
  }

  lemma {:induction false} ShiftIs(x: nat, r: nat)
    ensures Pow64(r) > 0 && Shift(x, r) == x / Pow64(r)
  {
    if r > 0 {
      ShiftIs(x, r - 1);
      ShiftNext(x, Pow64(r - 1));
    }
  }

  /** Group k is six bits of draw k / 10: those at place k % 10, counted from the lowest. */
  lemma GroupIs(stream: nat -> draw, first: nat, k: nat)
    ensures Pow64(k % 10) > 0
    ensures Group(stream, first, k) == stream(first + k / 10) / Pow64(k % 10) % 64
  {
    GroupAt(stream, first, k / 10, k % 10);
    ShiftIs(stream(first + k / 10), k % 10);
  }

  lemma {:induction false} GroupAt(stream: nat -> draw, first: nat, d: nat, r: nat)
    requires r < GROUPS_PER_DRAW
    ensures Group(stream, first, GROUPS_PER_DRAW * d + r) == Shift(stream(first + d), r) % 64
    decreases d
  {
    if d > 0 {
      GroupAt(stream, first + 1, d - 1, r);
    }
  }

  lemma {:induction false} AcceptedGrows(stream: nat -> draw, first: nat, j: nat, k: nat)
    requires j <= k
    ensures |Accepted(stream, first, j)| <= |Accepted(stream, first, k)|
  {
    if j < k {
      AcceptedGrows(stream, first, j, k - 1);
    }
  }

  /** `at` gives the increasing positions of the acceptable groups, those below 36, and leaves out none. */
  predicate PicksGroups(stream: nat -> draw, first: nat, k: nat, picked: seq<int>, at: seq<nat>) {
    && |at| == |picked|
    && (forall j :: 0 <= j < |at| ==> at[j] < k && picked[j] == Group(stream, first, at[j]) && picked[j] < 36)
    && (forall i, j :: 0 <= i < j < |at| ==> at[i] < at[j])
  }

  lemma PicksGroupsNext(stream: nat -> draw, first: nat, k: nat, picked: seq<int>, at: seq<nat>, group: int)
    requires PicksGroups(stream, first, k, picked, at) && group == Group(stream, first, k)
    ensures PicksGroups(stream, first, k + 1, picked, at)
    ensures group < 36 ==> PicksGroups(stream, first, k + 1, picked + [group], at + [k])
  {
  }

  predicate CoversGroups(stream: nat -> draw, first: nat, k: nat, at: seq<nat>) {
    forall i :: 0 <= i < k && Group(stream, first, i) < 36 ==> i in at
  }

  lemma CoversGroupsNext(stream: nat -> draw, first: nat, k: nat, at: seq<nat>)
    requires CoversGroups(stream, first, k, at)
    ensures CoversGroups(stream, first, k + 1, at + [k])
    ensures Group(stream, first, k) >= 36 ==> CoversGroups(stream, first, k + 1, at)
  {
    assert (at + [k])[|at|] == k;
  }

  lemma AcceptedNext(stream: nat -> draw, first: nat, k: nat, picked: seq<int>, at: seq<nat>, group: int)
    returns (more: seq<nat>)
    requires PicksGroups(stream, first, k, picked, at) && CoversGroups(stream, first, k, at)
    requires group == Group(stream, first, k)
    ensures PicksGroups(stream, first, k + 1, if group < 36 then picked + [group] else picked, more)
    ensures CoversGroups(stream, first, k + 1, more)
  {
    PicksGroupsNext(stream, first, k, picked, at, group);
    CoversGroupsNext(stream, first, k, at);
    more := if group < 36 then at + [k] else at;
  }

  lemma {:induction false} AcceptedAre(stream: nat -> draw, first: nat, k: nat) returns (at: seq<nat>)
    ensures PicksGroups(stream, first, k, Accepted(stream, first, k), at)
    ensures CoversGroups(stream, first, k, at)
  {
    if k == 0 {
      at := [];
    } else {
      var before := AcceptedAre(stream, first, k - 1);
      at := AcceptedNext(stream, first, k - 1, Accepted(stream, first, k - 1), before, Group(stream, first, k - 1));
    }
  }

  /** Every acceptable group is the index of a letter. */
  lemma {:induction false} AcceptedInAlphabet(stream: nat -> draw, first: nat, k: nat)
    ensures forall j :: 0 <= j < |Accepted(stream, first, k)| ==> 0 <= Accepted(stream, first, k)[j] < LETTER_COUNT
  {
    if k > 0 {
      AcceptedInAlphabet(stream, first, k - 1);
    }
  }

  /** The draws made when k groups have been examined: ten groups each but for the last draw,
      and one draw at the least. */
  predicate DrawsFor(k: nat, draws: nat) {
    if k == 0 then draws == 1 else GROUPS_PER_DRAW * (draws - 1) < k <= GROUPS_PER_DRAW * draws
  }

  /** One turn of the loop: draws again if the cache is used up, then takes the lowest group. */
  datatype Sampler = Sampler(drawn: nat, cache: nat, remain: nat, picked: seq<int>)
  {
    function Refill(stream: nat -> draw): Sampler {
      if remain == 0 then Sampler(drawn + 1, stream(drawn), GROUPS_PER_DRAW, picked) else this
    }

    function TakeGroup(): Sampler
      requires remain > 0
    {
      Sampler(drawn, cache / 64, remain - 1, if cache % 64 < LETTER_COUNT then picked + [cache % 64] else picked)
    }
  }

  /** Where the loop stands after k turns, its draws starting at `first`. */
  function After(stream: nat -> draw, first: nat, k: nat): Sampler {
    if k == 0 then Sampler(first + 1, stream(first), GROUPS_PER_DRAW, [])
    else After(stream, first, k - 1).Refill(stream).TakeGroup()
  }

  /** Where the draws stand after k turns. */
  lemma {:induction false} LoopDraws(stream: nat -> draw, first: nat, k: nat)
    ensures
      var s := After(stream, first, k);
      && s.drawn > first && k + s.remain == GROUPS_PER_DRAW * (s.drawn - first)
      && s.remain <= GROUPS_PER_DRAW && (k > 0 ==> s.remain < GROUPS_PER_DRAW)
      && s.cache == Shift(stream(s.drawn - 1), GROUPS_PER_DRAW - s.remain)
  {
    if k > 0 {
      LoopDraws(stream, first, k - 1);
    }
  }

  lemma RefillDraws(stream: nat -> draw, first: nat, k: nat, s: Sampler)
    requires s == After(stream, first, k).Refill(stream)
    ensures s.remain > 0 && s.drawn > first && k + s.remain == GROUPS_PER_DRAW * (s.drawn - first)
    ensures s.remain <= GROUPS_PER_DRAW && s.cache == Shift(stream(s.drawn - 1), GROUPS_PER_DRAW - s.remain)
    ensures s.picked == After(stream, first, k).picked
  {
    LoopDraws(stream, first, k);
  }

  /** One turn picks what one more group adds. */
  lemma TurnPicks(stream: nat -> draw, first: nat, k: nat, s: Sampler)
    requires s.remain > 0 && s.drawn > first && k + s.remain == GROUPS_PER_DRAW * (s.drawn - first)
    requires s.remain <= GROUPS_PER_DRAW && s.cache == Shift(stream(s.drawn - 1), GROUPS_PER_DRAW - s.remain)
    requires s.picked == Accepted(stream, first, k)
    ensures s.TakeGroup().picked == Accepted(stream, first, k + 1)
  {
    GroupAt(stream, first, s.drawn - first - 1, GROUPS_PER_DRAW - s.remain);
  }

  lemma NextPicks(stream: nat -> draw, first: nat, k: nat, s: Sampler)
    requires s == After(stream, first, k).Refill(stream) && s.picked == Accepted(stream, first, k)
    ensures s.remain > 0 && s.TakeGroup().picked == Accepted(stream, first, k + 1)
  {
    RefillDraws(stream, first, k, s);
    TurnPicks(stream, first, k, s);
  }

  /** The loop refines the filtered stream. */
  lemma {:induction false} LoopFilters(stream: nat -> draw, first: nat, k: nat)
    ensures After(stream, first, k).picked == Accepted(stream, first, k)
  {
    if k > 0 {
      LoopFilters(stream, first, k - 1);
      NextPicks(stream, first, k - 1, After(stream, first, k - 1).Refill(stream));
    }
  }

  /** The number of turns fixes the number of draws. */
  lemma TurnsFixDraws(stream: nat -> draw, first: nat, k: nat)
    ensures
      var s := After(stream, first, k);
      s.drawn > first && DrawsFor(k, s.drawn - first)
  {
    LoopDraws(stream, first, k);
  }

  /** That is a tenth of the groups, rounded up, and one draw at the least. */
  lemma DrawsAre(k: nat, draws: nat)
    ensures DrawsFor(k, draws) <==> draws == if k == 0 then 1 else (k + 9) / 10
  {
  }

  /** While fewer than n are picked, the groups examined are not yet enough, nor is the next one too many. */
  lemma NotYetEnough(stream: nat -> draw, first: nat, n: nat, k: nat, enough: nat)
    requires |After(stream, first, k).picked| < n <= |Accepted(stream, first, enough)|
    ensures k < enough && |Accepted(stream, first, k)| < n
  {
    LoopFilters(stream, first, k);
    if k >= enough {
      AcceptedGrows(stream, first, enough, k);
    }
  }

  class Source {
    const stream: nat -> draw
    var drawn: nat

    constructor (stream: nat -> draw)
      ensures this.stream == stream && drawn == 0
    {
      this.stream := stream;
      drawn := 0;
    }

    method Int63() returns (x: draw)
      modifies this
      ensures x == stream(old(drawn)) && drawn == old(drawn) + 1
    {
      x := stream(drawn);
      drawn := drawn + 1;
    }

    /** A string of n letters. Read from its last character backwards it is the first n acceptable
        groups of the draws to come; `examined` is how many groups that took, and it fixes the number
        of draws. The loop ends as soon as there were n acceptable groups: `enough` says where. */
    method RandString(n: nat, ghost enough: nat) returns (s: string, ghost examined: nat)
      requires |Accepted(stream, drawn, enough)| >= n
      modifies this
      ensures |s| == n && |Accepted(stream, old(drawn), examined)| == n
      ensures Spells(s, Accepted(stream, old(drawn), examined))
      ensures examined > 0 ==> |Accepted(stream, old(drawn), examined - 1)| < n
      ensures drawn >= old(drawn) && DrawsFor(examined, drawn - old(drawn))
    {
      ghost var first := drawn;
      var b := new char[n];
      examined := 0;
      var i: int := n - 1;
      var cache: nat := Int63();
      var remain: nat := GROUPS_PER_DRAW;
      ghost var text: string := b[..];
      while i >= 0
        invariant -1 <= i < n && (examined > 0 ==> |Accepted(stream, first, examined - 1)| < n)
        invariant b[..] == text && |text| == n
        invariant LoopAt(stream, first, examined, drawn, cache, remain, text, i)
        decreases enough - examined
      {
        NotYetEnough(stream, first, n, examined, enough);
        ghost var d, c, r := drawn, cache, remain;
        if remain == 0 {
          cache := Int63();
          remain := GROUPS_PER_DRAW;
        }
        LoopTurn(stream, first, examined, d, c, r, text, i, drawn, cache, remain);
        var idx := cache % 64;
        if idx < LETTER_COUNT {
          b[i] := Letter(idx);
          text := text[i := Letter(idx)];
          i := i - 1;
        }
        cache := cache / 64;
        remain := remain - 1;
        examined := examined + 1;
      }
      LoopFilters(stream, first, examined);
      TurnsFixDraws(stream, first, examined);
      s := b[..];
    }
  }

  /** The loop's variables after k turns: the letters picked so far fill the text behind place i. */
  predicate LoopAt(stream: nat -> draw, first: nat, k: nat, drawn: nat, cache: nat, remain: nat, text: string, i: int) {
    Holds(After(stream, first, k), drawn, cache, remain, text, i)
  }

  predicate Holds(s: Sampler, drawn: nat, cache: nat, remain: nat, text: string, i: int) {
    && s.drawn == drawn && s.cache == cache && s.remain == remain
    && |s.picked| == |text| - 1 - i && Spells(text, s.picked)
  }

  /** One turn, once the cache has been refilled: d, c and r are drawn, cache and remain from then on. */
  lemma LoopTurn(stream: nat -> draw, first: nat, k: nat, drawn: nat, cache: nat, remain: nat, text: string, i: int,
                 d: nat, c: nat, r: nat)
    ensures 0 <= i < |text| && LoopAt(stream, first, k, drawn, cache, remain, text, i)
            && Refilled(stream, drawn, cache, remain, d, c, r) ==>
      if c % 64 < LETTER_COUNT then
        LoopAt(stream, first, k + 1, d, c / 64, r - 1, text[i := Letter(c % 64)], i - 1)
      else
        LoopAt(stream, first, k + 1, d, c / 64, r - 1, text, i)
  {
    var s := After(stream, first, k).Refill(stream);
    if 0 <= i < |text| && LoopAt(stream, first, k, drawn, cache, remain, text, i) && s.cache % 64 < LETTER_COUNT {
      SpellsMore(text, s.picked, s.cache % 64);
    }
  }

  predicate Refilled(stream: nat -> draw, drawn: nat, cache: nat, remain: nat, d: nat, c: nat, r: nat) {
    && r > 0
    && if remain == 0 then d == drawn + 1 && c == stream(drawn) && r == GROUPS_PER_DRAW
       else d == drawn && c == cache && r == remain
  }

  /** The letters of the indices close the text, last index first. */
  predicate Spells(text: string, indices: seq<int>) {
    && |indices| <= |text|
    && (forall j :: 0 <= j < |indices| ==> 0 <= indices[j] < LETTER_COUNT)
    && forall j :: 0 <= j < |indices| ==> text[|text| - 1 - j] == Letter(indices[j])
  }

  lemma SpellsMore(text: string, indices: seq<int>, idx: nat)
    requires Spells(text, indices) && |indices| < |text| && idx < LETTER_COUNT
    ensures Spells(text[|text| - 1 - |indices| := Letter(idx)], indices + [idx])
  {
  }

  // ----- what the text is worth -----

  /** Every character is the letter its index names. */
  lemma TextIsLetters(text: string, indices: seq<int>)
    requires Spells(text, indices) && |indices| == |text|
    ensures
      var letters := "0123456789abcdefghijklmnopqrstuvwxyz";
      forall j :: 0 <= j < |text| ==> 0 <= indices[j] < |letters| && text[|text| - 1 - j] == letters[indices[j]]
  {
  }

  predicate IsSmallLetter(c: char) {
    'a' <= c <= 'z'
  }

  predicate IsDigit(c: char) {
    '0' <= c <= '9'
  }

  /** A label by section 2.3.1 of RFC 1035, in small letters. */
  predicate IsLabel(s: string) {
    && 0 < |s| <= 63
    && IsSmallLetter(s[0])
    && (forall i :: 0 <= i < |s| ==> IsSmallLetter(s[i]) || IsDigit(s[i]) || s[i] == '-')
    && s[|s| - 1] != '-'
  }

  /** A spelled text is a label exactly if it has a label's length and its last index is that of a letter. */
  lemma LabelIff(text: string, indices: seq<int>)
    requires Spells(text, indices) && |indices| == |text|
    ensures IsLabel(text) <==> 0 < |text| <= 63 && indices[|text| - 1] >= 10
  {
    forall j | 0 <= j < |text|
      ensures !IsDigit(Letter(indices[j])) ==> IsSmallLetter(Letter(indices[j]))
      ensures IsSmallLetter(text[|text| - 1 - j]) <==> indices[j] >= 10
    {
    }
    forall i | 0 <= i < |text| ensures text[i] == Letter(indices[|text| - 1 - i]) {
      assert text[i] == text[|text| - 1 - (|text| - 1 - i)];
    }
  }

  /** More groups only add acceptable ones at the end. */
  lemma {:induction false} AcceptedPrefix(stream: nat -> draw, first: nat, j: nat, k: nat)
    requires j <= k
    ensures Accepted(stream, first, j) <= Accepted(stream, first, k)
  {
    if j < k {
      AcceptedPrefix(stream, first, j, k - 1);
    }
  }

  /** Before the call: the text that RandString(n) will give is a label exactly if n is a label's length and
      the n-th acceptable group of the draws to come is at least 10. */
  lemma RandStringIsLabelIff(stream: nat -> draw, first: nat, n: nat, enough: nat, examined: nat, s: string)
    requires |Accepted(stream, first, enough)| >= n
    requires |s| == n == |Accepted(stream, first, examined)| && Spells(s, Accepted(stream, first, examined))
    ensures IsLabel(s) <==> 0 < n <= 63 && Accepted(stream, first, enough)[n - 1] >= 10
  {
    LabelIff(s, Accepted(stream, first, examined));
    if examined <= enough {
      AcceptedPrefix(stream, first, examined, enough);
    } else {
      AcceptedPrefix(stream, first, enough, examined);
    }
  }

  /** No length guarantees a label. When the few draws that n groups take are 0, the text comes out, and is
      all zeros. */
  lemma ZeroDrawsGiveNoLabel(stream: nat -> draw, first: nat, n: nat, examined: nat, s: string)
    requires forall d: nat :: first <= d <= first + n / GROUPS_PER_DRAW ==> stream(d) == 0
    requires |s| == n == |Accepted(stream, first, examined)| && Spells(s, Accepted(stream, first, examined))
    ensures |Accepted(stream, first, n)| == n && !IsLabel(s)
  {
    ZeroGroups(stream, first, n);
    RandStringIsLabelIff(stream, first, n, n, examined, s);
  }

  /** A text of one letter is a digit, and no label, when the first group is below 10. */
  lemma FirstDigitGivesNoLabel(stream: nat -> draw, first: nat, examined: nat, s: string)
    requires stream(first) % 64 < 10
    requires |s| == 1 == |Accepted(stream, first, examined)| && Spells(s, Accepted(stream, first, examined))
    ensures |Accepted(stream, first, 1)| == 1 && !IsLabel(s)
  {
    assert Accepted(stream, first, 0) == [] && Group(stream, first, 0) == stream(first) % 64;
    assert Accepted(stream, first, 1) == [stream(first) % 64];
    RandStringIsLabelIff(stream, first, 1, 1, examined, s);
  }

  lemma {:induction false} ZeroGroups(stream: nat -> draw, first: nat, k: nat)
    requires forall d: nat :: first <= d <= first + k / GROUPS_PER_DRAW ==> stream(d) == 0
    ensures |Accepted(stream, first, k)| == k
    ensures forall j :: 0 <= j < k ==> Accepted(stream, first, k)[j] == 0
  {
    if k > 0 {
      assert (k - 1) / GROUPS_PER_DRAW <= k / GROUPS_PER_DRAW;
      ZeroGroups(stream, first, k - 1);
      GroupAt(stream, first, (k - 1) / GROUPS_PER_DRAW, (k - 1) % GROUPS_PER_DRAW);
      ZeroShift((k - 1) % GROUPS_PER_DRAW);
    }
  }

  lemma {:induction false} ZeroShift(r: nat)
    ensures Shift(0, r) == 0
  {
    if r > 0 {
      ZeroShift(r - 1);
    }
  }
}
