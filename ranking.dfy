/** The end-of-game outcome: the ranking records finishGame builds, the
    JavaScript semantics of its comparator and of its `== 2` test, and the
    selection of the winner and the two runners-up. */
module Ranking {
  import opened Players

  /** The record pushed for each player; the score is stored under the key
      `socre`, as the source spells it. */
  datatype Ranked = Ranked(nickname: string, socre: int)

  /** A JavaScript number, as far as the values met here go. */
  datatype Num = NaN | Finite(value: int)

  /** The values a property read of a Ranked record can give. */
  datatype JsValue = Undefined | Text(text: string) | Number(number: int)

  /** Property lookup by name on a Ranked record: it has exactly the keys
      `nickname` and `socre`; any other key reads as undefined. */
  function Get(r: Ranked, key: string): JsValue
  {
    if key == "nickname" then Text(r.nickname)
    else if key == "socre" then Number(r.socre)
    else Undefined
  }

  /** ToNumber, for the non-string values met here. */
  function ToNumber(v: JsValue): Num
    requires !v.Text?
  {
    match v
    case Undefined => NaN
    case Number(n) => Finite(n)
  }

  /** `record.score` as a number, the operand the comparator subtracts. */
  function ScoreProperty(r: Ranked): (n: Num)
    ensures n == NaN
  {
    ToNumber(Get(r, "score"))
  }

  /** JavaScript subtraction: NaN in, NaN out. */
  function Subtract(a: Num, b: Num): (d: Num)
    ensures d.Finite? <==> a.Finite? && b.Finite?
    ensures d.Finite? ==> d.value + b.value == a.value
  {
    if a.Finite? && b.Finite? then Finite(a.value - b.value) else NaN
  }

  /** The comparator `(a, b) => b.score - a.score`. */
  function Comparator(a: Ranked, b: Ranked): Num
  {
    Subtract(ScoreProperty(b), ScoreProperty(a))
  }

  /** SortCompare of Array.prototype.sort: a NaN from the comparator counts
      as +0, so every pair of records compares equal. */
  function SortCompare(a: Ranked, b: Ranked): (v: int)
    ensures v == 0
  {
    match Comparator(a, b)
    case NaN => 0
    case Finite(d) => d
  }

  /** perm[k] is the index in the input of the element the sort puts at k. */
  predicate IsPermutation(perm: seq<int>, n: nat)
  {
    && |perm| == n
    && (forall k :: 0 <= k < n ==> 0 <= perm[k] < n)
    && (forall p, q :: 0 <= p < q < n ==> perm[p] != perm[q])
  }

  /** What ECMAScript requires of the result of Array.prototype.sort (stable
      since the 2019 edition) for a consistent comparator: a permutation,
      ordered by SortCompare, with equal elements in their original order. */
  predicate IsStableSortOf(list: seq<Ranked>, perm: seq<int>)
  {
    && IsPermutation(perm, |list|)
    && (forall p, q :: 0 <= p < q < |list| ==> SortCompare(list[perm[p]], list[perm[q]]) <= 0)
    && (forall p, q :: 0 <= p < q < |list| && SortCompare(list[perm[p]], list[perm[q]]) == 0 ==>
          perm[p] < perm[q])
  }

  function Permuted(list: seq<Ranked>, perm: seq<int>): seq<Ranked>
    requires IsPermutation(perm, |list|)
  {
    seq(|list|, k requires 0 <= k < |list| => list[perm[k]])
  }

  lemma {:induction false} IncreasingIsAtLeastIndex(perm: seq<int>, k: int)
    requires forall i :: 0 <= i < |perm| ==> perm[i] >= 0
    requires forall p, q :: 0 <= p < q < |perm| ==> perm[p] < perm[q]
    requires 0 <= k < |perm|
    ensures perm[k] >= k
  {
    if k > 0 {
      IncreasingIsAtLeastIndex(perm, k - 1);
    }
  }

  lemma {:induction false} IncreasingIsAtMostIndex(perm: seq<int>, k: int)
    requires forall i :: 0 <= i < |perm| ==> perm[i] < |perm|
    requires forall p, q :: 0 <= p < q < |perm| ==> perm[p] < perm[q]
    requires 0 <= k < |perm|
    ensures perm[k] <= k
    decreases |perm| - k
  {
    if k < |perm| - 1 {
      IncreasingIsAtMostIndex(perm, k + 1);
    }
  }

  /** Whatever stable sort the engine runs, the comparator of finishGame
      leaves the records in the order they were pushed. */
  lemma {:induction false} StableSortKeepsInsertionOrder(list: seq<Ranked>, perm: seq<int>)
    requires IsStableSortOf(list, perm)
    ensures forall k :: 0 <= k < |list| ==> perm[k] == k
    ensures Permuted(list, perm) == list
  {
    forall p, q | 0 <= p < q < |list| ensures perm[p] < perm[q] {
      assert SortCompare(list[perm[p]], list[perm[q]]) == 0;
    }
    forall k | 0 <= k < |list| ensures perm[k] == k {
      IncreasingIsAtLeastIndex(perm, k);
      IncreasingIsAtMostIndex(perm, k);
    }
  }

  /** ToNumber of an array of Ranked records: the array becomes the string
      of its elements joined by commas, which is "" (that is, 0) when empty
      and a list of "[object Object]" (that is, NaN) otherwise. */
  function ArrayToNumber(length: nat): (n: Num)
    ensures n.Finite? ==> n.value == 0
  {
    if length == 0 then Finite(0) else NaN
  }

  /** The loose equality `array == n` for a number n. */
  function ArrayLooseEquals(length: nat, n: int): (eq: bool)
    ensures eq ==> length == 0 && n == 0
  {
    match ArrayToNumber(length)
    case NaN => false
    case Finite(v) => v == n
  }

  /** The nickname at position i; the source only reads positions the
      array has. */
  function NicknameAt(list: seq<Ranked>, i: int): string
  {
    if 0 <= i < |list| then list[i].nickname else ""
  }

  /** The payload of the "game-over" message. */
  datatype Outcome = Outcome(
    winner: string,
    firstRunnerUp: string,
    secondRunnerUp: string,
    totalPlayers: int)

  /** The outcome finishGame publishes for the ranking list, the winner id
      ("" for none) and the current player counter. The winner is not
      removed from the list and the `== 2` branches never fire. */
  function FinishOutcome(list: seq<Ranked>, winnerId: string, players: map<string, Player>,
                         totalPlayers: int): (o: Outcome)
    requires winnerId != "" ==> winnerId in players
    ensures o.totalPlayers == totalPlayers
    ensures winnerId == "" ==> o.winner == "Nobody"
    ensures winnerId != "" ==> o.winner == players[winnerId].nickname
    ensures |list| < 3 ==> o.firstRunnerUp == "" && o.secondRunnerUp == ""
    ensures |list| >= 3 && winnerId == "" ==>
      o.firstRunnerUp == list[0].nickname && o.secondRunnerUp == list[1].nickname
    ensures |list| >= 3 && winnerId != "" ==>
      o.firstRunnerUp == list[1].nickname && o.secondRunnerUp == list[2].nickname
  {
    var shift := if winnerId == "" then 0 else 1;
    var winnerName := if winnerId == "" then "Nobody" else players[winnerId].nickname;
    if |list| >= 3 then
      Outcome(winnerName, NicknameAt(list, shift), NicknameAt(list, shift + 1), totalPlayers)
    else if ArrayLooseEquals(|list|, 2) then
      Outcome(winnerName, NicknameAt(list, shift), "", totalPlayers)
    else
      Outcome(winnerName, "", "", totalPlayers)
  }
}
