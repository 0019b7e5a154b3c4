/** Wave composition and the Fisher–Yates shuffle of the spawn queue. */
module Waves {

  /** Waves per level (`MAX_WAVES`). */
  const MaxWaves: int := 20

  /** The enemy tags that fill the spawn queue. */
  datatype EnemyKind = Orc | Bat | Golem

  /** `5 + Math.floor(wave * 0.5)`. */
  function OrcCount(wave: int): int { 5 + wave / 2 }

  /** `Math.floor(wave * 0.4)`. */
  function BatCount(wave: int): int { (2 * wave) / 5 }

  /** `Math.floor(wave * 0.2)`. */
  function GolemCount(wave: int): int { wave / 5 }

  /** The integer divisions are the floors of the code's real products:
      each count n satisfies n <= product < n + 1. */
  lemma CountsAreFloors(wave: int)
    ensures OrcCount(wave) as real <= 5.0 + (wave as real) * 0.5 < OrcCount(wave) as real + 1.0
    ensures BatCount(wave) as real <= (wave as real) * 0.4 < BatCount(wave) as real + 1.0
    ensures GolemCount(wave) as real <= (wave as real) * 0.2 < GolemCount(wave) as real + 1.0
  {
    var q2, q5, q25 := wave / 2, wave / 5, (2 * wave) / 5;
    assert wave == 2 * q2 + wave % 2 && 0 <= wave % 2 < 2;
    assert wave == 5 * q5 + wave % 5 && 0 <= wave % 5 < 5;
    assert 2 * wave == 5 * q25 + (2 * wave) % 5 && 0 <= (2 * wave) % 5 < 5;
  }

  /** Number of entries `startWave` puts in the queue. */
  function WaveSize(wave: int): int
    requires wave >= 0
  {
    OrcCount(wave) + BatCount(wave) + GolemCount(wave)
  }

  function Repeat<T>(x: T, n: nat): (r: seq<T>)
    ensures |r| == n
  {
    seq(n, _ => x)
  }

  /** The queue as the three push loops leave it, before shuffling. */
  function WaveQueue(wave: int): seq<EnemyKind>
    requires wave >= 0
  {
    Repeat(Orc, OrcCount(wave)) + Repeat(Bat, BatCount(wave)) + Repeat(Golem, GolemCount(wave))
  }

  lemma {:induction false} RepeatCounts<T>(x: T, n: nat, y: T)
    ensures multiset(Repeat(x, n))[y] == if y == x then n else 0
  {
    if n > 0 {
      RepeatCounts(x, n - 1, y);
      assert Repeat(x, n) == Repeat(x, n - 1) + [x];
    }
  }

  /** The unshuffled queue of wave w holds 5 + w/2 orcs, 2w/5 bats and
      w/5 golems, and nothing else. */
  lemma WaveQueueComposition(wave: int)
    requires wave >= 0
    ensures |WaveQueue(wave)| == WaveSize(wave)
    ensures multiset(WaveQueue(wave))[Orc] == OrcCount(wave)
    ensures multiset(WaveQueue(wave))[Bat] == BatCount(wave)
    ensures multiset(WaveQueue(wave))[Golem] == GolemCount(wave)
  {
    var o, b, g := Repeat(Orc, OrcCount(wave)), Repeat(Bat, BatCount(wave)), Repeat(Golem, GolemCount(wave));
    assert multiset(WaveQueue(wave)) == multiset(o) + multiset(b) + multiset(g);
    RepeatCounts(Orc, OrcCount(wave), Orc);
    RepeatCounts(Bat, BatCount(wave), Orc);
    RepeatCounts(Golem, GolemCount(wave), Orc);
    RepeatCounts(Orc, OrcCount(wave), Bat);
    RepeatCounts(Bat, BatCount(wave), Bat);
    RepeatCounts(Golem, GolemCount(wave), Bat);
    RepeatCounts(Orc, OrcCount(wave), Golem);
    RepeatCounts(Bat, BatCount(wave), Golem);
    RepeatCounts(Golem, GolemCount(wave), Golem);
  }

  /** Exchange of the cells i and j (`[array[i], array[j]] = [array[j], array[i]]`). */
  function Swap(s: seq<EnemyKind>, i: nat, j: nat): (r: seq<EnemyKind>)
    requires i < |s| && j < |s|
    ensures |r| == |s|
    ensures forall k :: 0 <= k < |s| && k != i && k != j ==> r[k] == s[k]
    ensures r[i] == s[j] && r[j] == s[i]
  {
    s[i := s[j]][j := s[i]]
  }

  /** A swap keeps the multiset of tags. */
  lemma SwapPerm(s: seq<EnemyKind>, i: nat, j: nat)
    requires i < |s| && j < |s|
    ensures multiset(Swap(s, i, j)) == multiset(s)
  {
  }

  /** The random draws of a shuffle of n cells: the draw used at step i
      is `Math.floor(Math.random() * (i + 1))`, so it lies in 0..i. */
  predicate ValidPicks(picks: seq<nat>, n: nat) {
    |picks| == n && forall i :: 0 <= i < n ==> picks[i] <= i
  }

  /** Steps i, i-1, ..., 1 of the Fisher–Yates countdown, applied to s.
      The result is a permutation of s. */
  function FisherYates(s: seq<EnemyKind>, picks: seq<nat>, i: nat): (r: seq<EnemyKind>)
    requires ValidPicks(picks, |s|) && (i < |s| || i == 0)
    ensures |r| == |s|
    decreases i
  {
    if i == 0 then s else FisherYates(Swap(s, i, picks[i]), picks, i - 1)
  }

  /** The countdown is a permutation of its input. */
  lemma {:induction false} FisherYatesPerm(s: seq<EnemyKind>, picks: seq<nat>, i: nat)
    requires ValidPicks(picks, |s|) && (i < |s| || i == 0)
    ensures multiset(FisherYates(s, picks, i)) == multiset(s)
    decreases i
  {
    if i > 0 {
      var t := Swap(s, i, picks[i]);
      SwapPerm(s, i, picks[i]);
      FisherYatesPerm(t, picks, i - 1);
    }
  }

  /** The whole shuffle of a sequence (`shuffleArray`). */
  function Shuffled(s: seq<EnemyKind>, picks: seq<nat>): (r: seq<EnemyKind>)
    requires ValidPicks(picks, |s|)
    ensures |r| == |s| && multiset(r) == multiset(s)
  {
    FisherYatesPerm(s, picks, if |s| == 0 then 0 else |s| - 1);
    FisherYates(s, picks, if |s| == 0 then 0 else |s| - 1)
  }

  /** A draw of i at every step leaves every cell in place: the shuffle
      can yield the identity. */
  lemma {:induction false} FisherYatesIdentity(s: seq<EnemyKind>, picks: seq<nat>, i: nat)
    requires ValidPicks(picks, |s|) && (i < |s| || i == 0)
    requires forall k :: 0 <= k < |s| ==> picks[k] == k
    ensures FisherYates(s, picks, i) == s
    decreases i
  {
    if i > 0 {
      assert Swap(s, i, picks[i]) == s;
      FisherYatesIdentity(s, picks, i - 1);
    }
  }

  /** `shuffleArray`: the countdown loop swapping in place. */
  method Shuffle(a: array<EnemyKind>, picks: seq<nat>)
    requires ValidPicks(picks, a.Length)
    modifies a
    ensures a[..] == Shuffled(old(a[..]), picks)
    ensures multiset(a[..]) == multiset(old(a[..]))
  {
    if a.Length == 0 {
      return;
    }
    ghost var goal := Shuffled(a[..], picks);
    var i := a.Length - 1;
    while i > 0
      invariant 0 <= i < a.Length
      invariant FisherYates(a[..], picks, i) == goal
      decreases i
    {
      var j := picks[i];
      ghost var before := a[..];
      var t := a[i];
      a[i] := a[j];
      a[j] := t;
      assert a[..] == Swap(before, i, j);
      i := i - 1;
    }
  }
}
