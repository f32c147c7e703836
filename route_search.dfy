/**
 * The search form (src/components/RouteSearch.tsx): two text fields,
 * `fromStation` and `toStation`, changed by typing, by the swap button and
 * by the popular-station buttons, and read by the guarded search.
 */
module RouteSearch {
  import opened Types

  /** The buttons under the form, in display order; each label is also the button's key. */
  const PopularStations: seq<string> := [
    "New Delhi (NDLS)", "Mumbai Central (BCT)", "Chennai Central (MAS)",
    "Howrah Junction (HWH)", "Bangalore City (SBC)", "Pune Junction (PUNE)",
    "Hyderabad Deccan (HYB)", "Ahmedabad Junction (ADI)", "Jaipur Junction (JP)",
    "Lucknow Junction (LJN)", "Patna Junction (PNBE)", "Bhopal Junction (BPL)",
    "Nagpur Junction (NGP)", "Guwahati (GHY)", "Trivandrum Central (TVC)",
    "Amritsar Junction (ASR)", "Varanasi Junction (BSB)", "Agra Cantt (AGC)"
  ]

  /** The labels are 18 distinct strings, so they are usable as keys. */
  lemma PopularStationsDistinct()
    ensures |PopularStations| == 18
    ensures forall i, j :: 0 <= i < j < |PopularStations| ==> PopularStations[i] != PopularStations[j]
  {
    forall i, j | 0 <= i < j < |PopularStations|
      ensures PopularStations[i] != PopularStations[j]
    {
      // no two labels share their first two characters
      assert PopularStations[i][0] != PopularStations[j][0] || PopularStations[i][1] != PopularStations[j][1];
    }
  }

  /** A snapshot of the two fields. */
  datatype Form = Form(from: string, to: string) {

    /** The Search button is disabled exactly when a field is empty. */
    predicate SearchDisabled() {
      from == "" || to == ""
    }

    /** `handleSwapStations`: both fields take the other's value from before the click. */
    function Swapped(): (f: Form) {
      Form(to, from)
    }

    /** A popular-station click fills the first empty field and leaves a filled one alone. */
    function Picked(station: string): (f: Form) {
      if from == "" then Form(station, to)
      else if to == "" then Form(from, station)
      else this
    }
  }

  /** Swapping twice restores the form. */
  lemma SwapTwice(f: Form)
    ensures f.Swapped().Swapped() == f
  {
  }

  /**
   * A click puts the label into the first empty field: the origin when it
   * is empty, else the destination when it is empty, else nowhere. It never
   * overwrites a filled field and never changes both fields.
   */
  lemma PickNeverOverwrites(f: Form, station: string)
    ensures f.from == "" ==> f.Picked(station).from == station
    ensures f.from != "" && f.to == "" ==> f.Picked(station).to == station
    ensures f.from != "" ==> f.Picked(station).from == f.from
    ensures f.to != "" ==> f.Picked(station).to == f.to
    ensures f.Picked(station).from == f.from || f.Picked(station).to == f.to
  {
  }

  /** A click on a filled form changes nothing, so a later click cannot undo a completed pick. */
  lemma PickIdempotentWhenFull(f: Form, s1: string, s2: string)
    requires f.from != "" && f.to != ""
    ensures f.Picked(s1).Picked(s2) == f
  {
  }

  /** Picking two non-empty labels into an empty form fills the origin, then the destination. */
  lemma PickTwiceFromEmpty(s1: string, s2: string)
    requires s1 != "" && s2 != ""
    ensures Form("", "").Picked(s1).Picked(s2) == Form(s1, s2)
    ensures !Form("", "").Picked(s1).Picked(s2).SearchDisabled()
  {
  }

  /** The component's two state fields. */
  class RouteSearchForm {
    var fromStation: string
    var toStation: string

    function State(): (f: Form)
      reads this
    {
      Form(fromStation, toStation)
    }

    constructor ()
      ensures fromStation == "" && toStation == ""
    {
      fromStation, toStation := "", "";
    }

    /**
     * `handleSearch`: the `onSearch(from, to)` call it makes, if any; it
     * calls exactly when the button is enabled and changes nothing.
     */
    method HandleSearch() returns (request: Option<Route>)
      ensures request.Some? <==> fromStation != "" && toStation != ""
      ensures request.None? <==> State().SearchDisabled()
      ensures request.Some? ==> request.value == Route(fromStation, toStation)
    {
      if fromStation != "" && toStation != "" {
        request := Some(Route(fromStation, toStation));
      } else {
        request := None;
      }
    }

    /** `handleSwapStations`: both setters read the values from before the click. */
    method HandleSwapStations()
      modifies this
      ensures State() == old(State()).Swapped()
      ensures fromStation == old(toStation) && toStation == old(fromStation)
    {
      fromStation, toStation := toStation, fromStation;
    }

    /** Typing into the origin input changes the origin only. */
    method SetFromStation(value: string)
      modifies this
      ensures fromStation == value && toStation == old(toStation)
    {
      fromStation := value;
    }

    /** Typing into the destination input changes the destination only. */
    method SetToStation(value: string)
      modifies this
      ensures toStation == value && fromStation == old(fromStation)
    {
      toStation := value;
    }

    /** The `onClick` of popular-station button `k`. */
    method ClickPopularStation(k: nat)
      requires k < |PopularStations|
      modifies this
      ensures State() == old(State()).Picked(PopularStations[k])
      ensures old(fromStation) != "" ==> fromStation == old(fromStation)
      ensures old(toStation) != "" ==> toStation == old(toStation)
    {
      var station := PopularStations[k];
      if fromStation == "" {
        fromStation := station;
      } else if toStation == "" {
        toStation := station;
      }
    }
  }
}
