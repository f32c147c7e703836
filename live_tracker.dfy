/**
 * The live-tracking panel (src/components/LiveTracker.tsx): a fixed feed of
 * four trains, a periodic tick that advances the progress of the moving
 * ones, and the status badge label.
 *
 * `Math.random()` is not modelled: each tick receives, for every train, the
 * value `Math.random() * 5` as a parameter `d` with `0 <= d < 5`. Progress
 * is an exact `real` rather than a floating-point number.
 */
module LiveTracker {
  import opened Types

  datatype LiveStatus = Moving | Stationary | Delayed | Running | Cancelled

  datatype LiveTrain = LiveTrain(
    id: string,
    number: string,
    name: string,
    currentStation: string,
    nextStation: string,
    status: LiveStatus,
    progress: real,
    estimatedArrival: string)

  /** The feed installed when a route is selected. */
  const InitialFeed: seq<LiveTrain> := [
    LiveTrain("1", "12951", "Mumbai Rajdhani Express", "Vadodara Junction (BRC)", "Ratlam Junction (RTM)", Moving, 68.0, "08:35"),
    LiveTrain("2", "12009", "Shatabdi Express", "Mathura Junction (MTJ)", "Agra Cantt (AGC)", Delayed, 45.0, "14:40"),
    LiveTrain("3", "12617", "Mangala Lakshadweep Express", "Shoranur Junction (SRR)", "Thrissur (TCR)", Moving, 82.0, "04:25"),
    LiveTrain("4", "12002", "New Delhi Shatabdi", "Platform 1 - NDLS", "Service Suspended", Stationary, 0.0, "N/A")
  ]

  /** Every train's progress lies in 0..100. */
  predicate ValidFeed(feed: seq<LiveTrain>) {
    forall i :: 0 <= i < |feed| ==> 0.0 <= feed[i].progress <= 100.0
  }

  /** No two trains share an id (the id is the list key). */
  predicate DistinctIds(feed: seq<LiveTrain>) {
    forall i, j :: 0 <= i < j < |feed| ==> feed[i].id != feed[j].id
  }

  /** The initial feed: ids "1" to "4", all progress values in range. */
  lemma InitialFeedFacts()
    ensures |InitialFeed| == 4
    ensures forall i :: 0 <= i < 4 ==> InitialFeed[i].id == ["1", "2", "3", "4"][i]
    ensures DistinctIds(InitialFeed) && ValidFeed(InitialFeed)
  {
  }

  /** One value of `Math.random() * 5`. */
  predicate IsDelta(d: real) {
    0.0 <= d < 5.0
  }

  predicate AllDeltas(ds: seq<real>) {
    forall i :: 0 <= i < |ds| ==> IsDelta(ds[i])
  }

  function Min(a: real, b: real): (m: real) {
    if a <= b then a else b
  }

  /**
   * The tick applied to one train: a moving train advances by `d` but is
   * capped at 100; every other train, and every other field, is left alone.
   */
  function TickTrain(t: LiveTrain, d: real): (r: LiveTrain)
    ensures r == t.(progress := r.progress)
    ensures t.status != Moving ==> r.progress == t.progress
    ensures t.status == Moving && t.progress + d <= 100.0 ==> r.progress == t.progress + d
    ensures t.status == Moving && t.progress + d >= 100.0 ==> r.progress == 100.0
  {
    t.(progress := if t.status == Moving then Min(100.0, t.progress + d) else t.progress)
  }

  /**
   * What one tick does to a progress value in range: it never decreases,
   * rises by less than 5, never passes 100, and stays at 100 once there.
   */
  lemma TickTrainFacts(t: LiveTrain, d: real)
    requires IsDelta(d) && t.progress <= 100.0
    ensures var r := TickTrain(t, d);
      && t.progress <= r.progress <= 100.0
      && r.progress - t.progress < 5.0
      && (t.progress == 100.0 ==> r.progress == 100.0)
  {
  }

  /** `prev.map(train => ({ ...train, progress: ... }))` with train `i` drawing `deltas[i]`. */
  function Tick(feed: seq<LiveTrain>, deltas: seq<real>): (r: seq<LiveTrain>)
    requires |deltas| == |feed| && AllDeltas(deltas)
    ensures |r| == |feed|
    ensures forall i :: 0 <= i < |r| ==> r[i] == feed[i].(progress := r[i].progress)
    ensures forall i :: 0 <= i < |r| && feed[i].status != Moving ==> r[i].progress == feed[i].progress
    ensures forall i :: 0 <= i < |r| && feed[i].status == Moving && feed[i].progress + deltas[i] <= 100.0 ==>
      r[i].progress == feed[i].progress + deltas[i]
    ensures forall i :: 0 <= i < |r| && feed[i].status == Moving && feed[i].progress + deltas[i] >= 100.0 ==>
      r[i].progress == 100.0
    ensures ValidFeed(feed) ==> ValidFeed(r)
    ensures ValidFeed(feed) ==> forall i :: 0 <= i < |r| ==> feed[i].progress <= r[i].progress < feed[i].progress + 5.0
  {
    var r := seq(|feed|, i requires 0 <= i < |feed| => TickTrain(feed[i], deltas[i]));
    assert ValidFeed(feed) ==> forall i :: 0 <= i < |r| ==> feed[i].progress <= r[i].progress < feed[i].progress + 5.0 by {
      if ValidFeed(feed) {
        forall i | 0 <= i < |r|
          ensures feed[i].progress <= r[i].progress < feed[i].progress + 5.0
        {
          TickTrainFacts(feed[i], deltas[i]);
        }
      }
    }
    r
  }

  /** A run of rounds whose every round draws one delta per train. */
  predicate ValidRounds(rounds: seq<seq<real>>, n: nat) {
    forall k :: 0 <= k < |rounds| ==> |rounds[k]| == n && AllDeltas(rounds[k])
  }

  /** The feed after the interval has fired once per round. */
  function Run(feed: seq<LiveTrain>, rounds: seq<seq<real>>): (r: seq<LiveTrain>)
    requires ValidRounds(rounds, |feed|)
    ensures |r| == |feed|
    decreases |rounds|
  {
    if rounds == [] then feed else Run(Tick(feed, rounds[0]), rounds[1..])
  }

  /**
   * Any number of ticks keeps the list's length, order and every field
   * but progress; keeps progress in 0..100; never lowers it; leaves the
   * progress of a train that is not moving exactly as it was; and keeps a
   * train that has reached 100 at 100.
   */
  lemma {:induction false} RunFacts(feed: seq<LiveTrain>, rounds: seq<seq<real>>)
    requires ValidFeed(feed) && ValidRounds(rounds, |feed|)
    ensures var r := Run(feed, rounds);
      && ValidFeed(r)
      && (forall i :: 0 <= i < |r| ==> r[i] == feed[i].(progress := r[i].progress))
      && (forall i :: 0 <= i < |r| ==> feed[i].progress <= r[i].progress)
      && (forall i :: 0 <= i < |r| && feed[i].status != Moving ==> r[i].progress == feed[i].progress)
      && (forall i :: 0 <= i < |r| && feed[i].progress == 100.0 ==> r[i].progress == 100.0)
    decreases |rounds|
  {
    if rounds != [] {
      var next := Tick(feed, rounds[0]);
      assert ValidRounds(rounds[1..], |next|) by {
        forall k | 0 <= k < |rounds[1..]|
          ensures |rounds[1..][k]| == |next| && AllDeltas(rounds[1..][k])
        {
          assert rounds[1..][k] == rounds[k + 1];
        }
      }
      RunFacts(next, rounds[1..]);
    }
  }

  /** The label `getStatusBadge` shows for a status: one of four texts. */
  function BadgeLabel(status: LiveStatus): (text: string)
    ensures text in {"Running", "Delayed", "At Station", "Cancelled"}
  {
    match status
    case Moving | Running => "Running"
    case Delayed => "Delayed"
    case Stationary => "At Station"
    case Cancelled => "Cancelled"
  }

  /** Moving and running share the "Running" badge; every other status has a label of its own. */
  lemma BadgeLabels(s: LiveStatus, u: LiveStatus)
    ensures BadgeLabel(s) == "Running" <==> s == Moving || s == Running
    ensures BadgeLabel(Delayed) == "Delayed" && BadgeLabel(Stationary) == "At Station"
    ensures BadgeLabel(Cancelled) == "Cancelled"
    ensures BadgeLabel(s) == BadgeLabel(u) <==> s == u || ({s, u} == {Moving, Running})
  {
  }

  /** The panel's one state field. */
  class LiveTrackerView {
    var liveTrains: seq<LiveTrain>

    constructor ()
      ensures liveTrains == []
    {
      liveTrains := [];
    }

    /** The effect body run when the route changes: without a route it does nothing. */
    method StartFeed(route: Option<Route>)
      modifies this
      ensures route.None? ==> liveTrains == old(liveTrains)
      ensures route.Some? ==> liveTrains == InitialFeed && ValidFeed(liveTrains)
    {
      if route.Some? {
        liveTrains := InitialFeed;
      }
    }

    /** One firing of the interval: the whole list is replaced by its tick. */
    method OnInterval(deltas: seq<real>)
      requires |deltas| == |liveTrains| && AllDeltas(deltas)
      modifies this
      ensures liveTrains == Tick(old(liveTrains), deltas)
      ensures ValidFeed(old(liveTrains)) ==> ValidFeed(liveTrains)
    {
      liveTrains := Tick(liveTrains, deltas);
    }
  }
}
