/** The race-control page: the confirmed pilots it loads, the engine lottery and the track
    flag. */
module Cronomax {
  import opened Wrappers
  import opened Types
  import opened Seqs
  import opened Storage

  function IsConfirmed(p: Pilot): bool {
    p.status == Confirmado
  }

  /** The page's pilots: `getPilots().filter(p => p.status === 'Confirmado')`. */
  function LoadedPilots(ps: seq<Pilot>): seq<Pilot> {
    Filter(ps, IsConfirmed)
  }

  /** Only confirmed pilots are loaded, all of them, in roster order. */
  lemma LoadsConfirmed(ps: seq<Pilot>)
    ensures forall p :: p in LoadedPilots(ps) <==> p in ps && p.status == Confirmado
    ensures IsSubsequence(LoadedPilots(ps), ps)
  {
  }

  /** The engines put into the draw: `Array.from({length: n}, (_, i) => i + 101)`. */
  function Motors(n: nat): (r: seq<int>)
    ensures |r| == n
    ensures forall i :: 0 <= i < n ==> r[i] == i + 101
  {
    seq(n, i requires 0 <= i < n => i + 101)
  }

  predicate Distinct(xs: seq<int>) {
    forall i, j :: 0 <= i < j < |xs| ==> xs[i] != xs[j]
  }

  /** `xs` with the element at position `k` taken out. */
  function Without(xs: seq<int>, k: nat): (r: seq<int>)
    requires k < |xs|
    ensures |r| == |xs| - 1
    ensures forall x :: x in r <==> exists i :: 0 <= i < |xs| && i != k && xs[i] == x
  {
    var r := xs[..k] + xs[k + 1..];
    assert forall i :: 0 <= i < |r| ==> r[i] == if i < k then xs[i] else xs[i + 1];
    r
  }

  lemma WithoutDistinct(xs: seq<int>, k: nat)
    requires k < |xs|
    ensures Distinct(xs) ==> Distinct(Without(xs, k)) && xs[k] !in Without(xs, k)
  {
    var r := Without(xs, k);
    assert forall i :: 0 <= i < |r| ==> r[i] == if i < k then xs[i] else xs[i + 1];
  }

  /** The shuffle `.sort(() => Math.random() - 0.5)`, with the random choices as a
      parameter: each step moves the element at position `draws[0] mod n` of what is left
      to the front of the result. */
  function Shuffle(xs: seq<int>, draws: seq<nat>): (r: seq<int>)
    ensures |r| == |xs|
    ensures forall x :: x in r <==> x in xs
    ensures Distinct(xs) ==> Distinct(r)
    decreases |xs|
  {
    if xs == [] then []
    else
      var k := if draws == [] then 0 else draws[0] % |xs|;
      var rest := Shuffle(Without(xs, k), if draws == [] then [] else draws[1..]);
      WithoutDistinct(xs, k);
      assert forall x :: x in [xs[k]] + rest <==> x == xs[k] || x in rest;
      [xs[k]] + rest
  }

  /** One line of the lottery result. */
  datatype Draw = Draw(pilot: string, motor: int)

  const LotterySize: nat := 10

  /** `runMotorLottery`: the first ten loaded pilots, in order, each with an engine from the
      shuffled list. */
  function Lottery(loaded: seq<Pilot>, draws: seq<nat>): seq<Draw> {
    var active := Take(loaded, LotterySize);
    var shuffled := Shuffle(Motors(|active|), draws);
    seq(|active|, i requires 0 <= i < |active| => Draw(active[i].name, shuffled[i]))
  }

  function MotorsOf(r: seq<Draw>): seq<int> {
    seq(|r|, i requires 0 <= i < |r| => r[i].motor)
  }

  /** Whatever the random draws, the lottery gives one line per drawn pilot, at most ten, in
      loading order, and hands out the engines 101..100+n each exactly once. */
  lemma LotteryIsPermutation(loaded: seq<Pilot>, draws: seq<nat>)
    ensures var r := Lottery(loaded, draws);
            |r| == Min(|loaded|, LotterySize)
            && (forall i :: 0 <= i < |r| ==> r[i].pilot == loaded[i].name)
            && Distinct(MotorsOf(r))
            && forall m :: m in MotorsOf(r) <==> 101 <= m <= 100 + |r|
  {
    var r := Lottery(loaded, draws);
    var n := |r|;
    var motors := Motors(n);
    var shuffled := Shuffle(motors, draws);
    assert Distinct(motors);
    assert MotorsOf(r) == shuffled;
    forall m ensures m in motors <==> 101 <= m <= 100 + n {
      if 101 <= m <= 100 + n {
        assert motors[m - 101] == m;
      }
    }
  }

  /** `changeFlag`: the page shows the new flag and the store keeps it. */
  method ChangeFlag(store: LocalStore, flag: TrackFlag) returns (shown: TrackFlag)
    modifies store
    ensures shown == flag
    ensures store.State() == old(store.State()).(track := Some(flag))
    ensures store.TrackStatus() == flag
  {
    shown := flag;
    store.SaveTrackStatus(flag);
  }
}
