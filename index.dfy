/**
 * The data logic of the dashboard page (src/pages/Index.tsx): the route
 * metrics table, the additive checksum of the route, the choice of 4 to 6
 * catalog trains, the per-train status / weather / station / time
 * derivation, and the page state that a search replaces.
 */
module Index {
  import opened Types
  import opened Decimal

  // ---------------------------------------------------------------------
  // Route metrics (getRouteData)
  // ---------------------------------------------------------------------

  datatype RouteMetrics = RouteMetrics(distance: string, duration: string)

  const NewDelhi := "New Delhi (NDLS)"
  const MumbaiCentral := "Mumbai Central (BCT)"
  const ChennaiCentral := "Chennai Central (MAS)"
  const HowrahJunction := "Howrah Junction (HWH)"
  const BangaloreCity := "Bangalore City (SBC)"

  /** The lookup key `${from} → ${to}`. */
  function RouteKey(from: string, to: string): (k: string) {
    from + " → " + to
  }

  /** A key built from arrow-free stations holds exactly one arrow, just after the origin and a blank. */
  lemma RouteKeyArrow(from: string, to: string)
    requires '→' !in from && '→' !in to
    ensures RouteKey(from, to)[|from| + 1] == '→'
    ensures forall j :: 0 <= j < |RouteKey(from, to)| && RouteKey(from, to)[j] == '→' ==> j == |from| + 1
  {
    var k := RouteKey(from, to);
    forall j | 0 <= j < |k| && k[j] == '→'
      ensures j == |from| + 1
    {
    }
  }

  /** The ten known city pairs, each listed in both directions. */
  const Routes: map<string, RouteMetrics> := map[
    "New Delhi (NDLS) → Mumbai Central (BCT)" := RouteMetrics("1384 km", "15h 50m"),
    "Mumbai Central (BCT) → New Delhi (NDLS)" := RouteMetrics("1384 km", "15h 50m"),
    "New Delhi (NDLS) → Chennai Central (MAS)" := RouteMetrics("2180 km", "27h 45m"),
    "Chennai Central (MAS) → New Delhi (NDLS)" := RouteMetrics("2180 km", "27h 45m"),
    "New Delhi (NDLS) → Howrah Junction (HWH)" := RouteMetrics("1441 km", "17h 20m"),
    "Howrah Junction (HWH) → New Delhi (NDLS)" := RouteMetrics("1441 km", "17h 20m"),
    "Mumbai Central (BCT) → Chennai Central (MAS)" := RouteMetrics("1279 km", "21h 15m"),
    "Chennai Central (MAS) → Mumbai Central (BCT)" := RouteMetrics("1279 km", "21h 15m"),
    "New Delhi (NDLS) → Bangalore City (SBC)" := RouteMetrics("2444 km", "34h 30m"),
    "Bangalore City (SBC) → New Delhi (NDLS)" := RouteMetrics("2444 km", "34h 30m")
  ]

  const DefaultMetrics := RouteMetrics("520 km", "8h 30m")

  /**
   * The metrics of a route: the table entry under the exact key, and the
   * default exactly when the key is not in the table.
   */
  function GetRouteData(from: string, to: string): (m: RouteMetrics)
    ensures RouteKey(from, to) in Routes <==> m != DefaultMetrics
    ensures m != DefaultMetrics ==> m == Routes[RouteKey(from, to)]
  {
    var key := RouteKey(from, to);
    if key in Routes then Routes[key] else DefaultMetrics
  }

  /** A key splits back into its two stations when the stations hold no arrow. */
  lemma RouteKeyInjective(a: string, b: string, c: string, d: string)
    requires '→' !in c && '→' !in d
    requires RouteKey(a, b) == RouteKey(c, d)
    ensures a == c && b == d
  {
    var k := RouteKey(c, d);
    RouteKeyArrow(c, d);
    assert RouteKey(a, b)[|a| + 1] == '→';
    assert |a| == |c|;
    assert a == k[..|a|];
    assert b == k[|a| + 3..];
  }

  /** A key equal to that of the pair (f, t) whose reverse carries the same metrics. */
  lemma ReverseOfPair(a: string, b: string, f: string, t: string)
    requires '→' !in f && '→' !in t
    requires RouteKey(a, b) == RouteKey(f, t) && RouteKey(f, t) in Routes
    requires RouteKey(t, f) in Routes && Routes[RouteKey(t, f)] == Routes[RouteKey(f, t)]
    ensures RouteKey(b, a) in Routes && Routes[RouteKey(b, a)] == Routes[RouteKey(a, b)]
  {
    RouteKeyInjective(a, b, f, t);
  }

  // The table's literal keys are the keys its city pairs produce, both ways.

  lemma DelhiMumbaiKeys()
    ensures RouteKey(NewDelhi, MumbaiCentral) == "New Delhi (NDLS) → Mumbai Central (BCT)"
    ensures RouteKey(MumbaiCentral, NewDelhi) == "Mumbai Central (BCT) → New Delhi (NDLS)"
  {
  }

  lemma DelhiChennaiKeys()
    ensures RouteKey(NewDelhi, ChennaiCentral) == "New Delhi (NDLS) → Chennai Central (MAS)"
    ensures RouteKey(ChennaiCentral, NewDelhi) == "Chennai Central (MAS) → New Delhi (NDLS)"
  {
  }

  lemma DelhiHowrahKeys()
    ensures RouteKey(NewDelhi, HowrahJunction) == "New Delhi (NDLS) → Howrah Junction (HWH)"
    ensures RouteKey(HowrahJunction, NewDelhi) == "Howrah Junction (HWH) → New Delhi (NDLS)"
  {
  }

  lemma MumbaiChennaiKeys()
    ensures RouteKey(MumbaiCentral, ChennaiCentral) == "Mumbai Central (BCT) → Chennai Central (MAS)"
    ensures RouteKey(ChennaiCentral, MumbaiCentral) == "Chennai Central (MAS) → Mumbai Central (BCT)"
  {
  }

  lemma DelhiBangaloreKeys()
    ensures RouteKey(NewDelhi, BangaloreCity) == "New Delhi (NDLS) → Bangalore City (SBC)"
    ensures RouteKey(BangaloreCity, NewDelhi) == "Bangalore City (SBC) → New Delhi (NDLS)"
  {
  }

  /** Each key of the table is the key of one of the five pairs, in one direction or the other. */
  lemma KeysArePairs(k: string)
    requires k in Routes
    ensures || k == RouteKey(NewDelhi, MumbaiCentral) || k == RouteKey(MumbaiCentral, NewDelhi)
            || k == RouteKey(NewDelhi, ChennaiCentral) || k == RouteKey(ChennaiCentral, NewDelhi)
            || k == RouteKey(NewDelhi, HowrahJunction) || k == RouteKey(HowrahJunction, NewDelhi)
            || k == RouteKey(MumbaiCentral, ChennaiCentral) || k == RouteKey(ChennaiCentral, MumbaiCentral)
            || k == RouteKey(NewDelhi, BangaloreCity) || k == RouteKey(BangaloreCity, NewDelhi)
  {
    DelhiMumbaiKeys();
    DelhiChennaiKeys();
    DelhiHowrahKeys();
    MumbaiChennaiKeys();
    DelhiBangaloreKeys();
  }

  /** Both directions of a pair are in the table with the same metrics. */
  lemma PairInBothDirections(f: string, t: string)
    requires (f, t) in {(NewDelhi, MumbaiCentral), (NewDelhi, ChennaiCentral), (NewDelhi, HowrahJunction),
                        (MumbaiCentral, ChennaiCentral), (NewDelhi, BangaloreCity)}
    ensures RouteKey(f, t) in Routes && RouteKey(t, f) in Routes
    ensures Routes[RouteKey(f, t)] == Routes[RouteKey(t, f)]
  {
    if (f, t) == (NewDelhi, MumbaiCentral) {
      DelhiMumbaiKeys();
    } else if (f, t) == (NewDelhi, ChennaiCentral) {
      DelhiChennaiKeys();
    } else if (f, t) == (NewDelhi, HowrahJunction) {
      DelhiHowrahKeys();
    } else if (f, t) == (MumbaiCentral, ChennaiCentral) {
      MumbaiChennaiKeys();
    } else {
      DelhiBangaloreKeys();
    }
  }

  /** Every key of the table has its reverse in the table, with the same metrics. */
  lemma ReverseKeyInRoutes(a: string, b: string)
    requires RouteKey(a, b) in Routes
    ensures RouteKey(b, a) in Routes && Routes[RouteKey(b, a)] == Routes[RouteKey(a, b)]
  {
    var k := RouteKey(a, b);
    KeysArePairs(k);
    if k == RouteKey(NewDelhi, MumbaiCentral) || k == RouteKey(MumbaiCentral, NewDelhi) {
      PairInBothDirections(NewDelhi, MumbaiCentral);
      if k == RouteKey(NewDelhi, MumbaiCentral) {
        ReverseOfPair(a, b, NewDelhi, MumbaiCentral);
      } else {
        ReverseOfPair(a, b, MumbaiCentral, NewDelhi);
      }
    } else if k == RouteKey(NewDelhi, ChennaiCentral) || k == RouteKey(ChennaiCentral, NewDelhi) {
      PairInBothDirections(NewDelhi, ChennaiCentral);
      if k == RouteKey(NewDelhi, ChennaiCentral) {
        ReverseOfPair(a, b, NewDelhi, ChennaiCentral);
      } else {
        ReverseOfPair(a, b, ChennaiCentral, NewDelhi);
      }
    } else if k == RouteKey(NewDelhi, HowrahJunction) || k == RouteKey(HowrahJunction, NewDelhi) {
      PairInBothDirections(NewDelhi, HowrahJunction);
      if k == RouteKey(NewDelhi, HowrahJunction) {
        ReverseOfPair(a, b, NewDelhi, HowrahJunction);
      } else {
        ReverseOfPair(a, b, HowrahJunction, NewDelhi);
      }
    } else if k == RouteKey(MumbaiCentral, ChennaiCentral) || k == RouteKey(ChennaiCentral, MumbaiCentral) {
      PairInBothDirections(MumbaiCentral, ChennaiCentral);
      if k == RouteKey(MumbaiCentral, ChennaiCentral) {
        ReverseOfPair(a, b, MumbaiCentral, ChennaiCentral);
      } else {
        ReverseOfPair(a, b, ChennaiCentral, MumbaiCentral);
      }
    } else {
      PairInBothDirections(NewDelhi, BangaloreCity);
      if k == RouteKey(NewDelhi, BangaloreCity) {
        ReverseOfPair(a, b, NewDelhi, BangaloreCity);
      } else {
        ReverseOfPair(a, b, BangaloreCity, NewDelhi);
      }
    }
  }

  /** Swapping the two stations never changes the metrics. */
  lemma RouteDataSymmetric(a: string, b: string)
    ensures GetRouteData(a, b) == GetRouteData(b, a)
  {
    if RouteKey(a, b) in Routes {
      ReverseKeyInRoutes(a, b);
    } else if RouteKey(b, a) in Routes {
      ReverseKeyInRoutes(b, a);
    }
  }

  /** An exact table hit: New Delhi to Mumbai Central. */
  lemma DelhiMumbaiMetrics()
    ensures GetRouteData("New Delhi (NDLS)", "Mumbai Central (BCT)") == RouteMetrics("1384 km", "15h 50m")
  {
    assert RouteKey("New Delhi (NDLS)", "Mumbai Central (BCT)") == "New Delhi (NDLS) → Mumbai Central (BCT)";
  }

  /** An unknown pair falls back to the default metrics. */
  lemma UnknownRouteMetrics()
    ensures GetRouteData("Foo", "Bar") == RouteMetrics("520 km", "8h 30m")
  {
    assert RouteKey("Foo", "Bar") == "Foo → Bar";
  }

  /** `parseInt(duration.split('h')[0])`: the whole hours of a duration. */
  function DurationHours(duration: string): (r: Option<nat>)
    ensures r.None? <==> (BeforeFirst(duration, 'h') == [] || !IsDigit(duration[0]))
  {
    ParseLeadingInt(BeforeFirst(duration, 'h'))
  }

  /** The hours of a duration written as `${n}h...`. */
  lemma DurationHoursOfShow(n: nat, rest: string)
    ensures DurationHours(Show(n) + "h" + rest) == Some(n)
  {
    var d := Show(n) + "h" + rest;
    assert d == Show(n) + ("h" + rest);
    NoLetterInDigits(Show(n), "h" + rest);
    assert BeforeFirst(d, 'h') == Show(n);
    ParseShow(n, "");
    assert Show(n) + "" == Show(n);
  }

  lemma {:induction false} NoLetterInDigits(d: string, rest: string)
    requires AllDigits(d) && rest != [] && rest[0] == 'h'
    ensures BeforeFirst(d + rest, 'h') == d
    decreases |d|
  {
    if d != [] {
      assert (d + rest)[1..] == d[1..] + rest;
      NoLetterInDigits(d[1..], rest);
    }
  }

  /** Every duration the metrics lookup can return has whole hours. */
  lemma MetricsHaveHours(from: string, to: string)
    ensures DurationHours(GetRouteData(from, to).duration).Some?
    ensures DurationHours(GetRouteData(from, to).duration).value in {15, 27, 17, 21, 34, 8}
  {
    var d := GetRouteData(from, to).duration;
    if d == "15h 50m" {
      assert d == Show(15) + "h" + " 50m"; DurationHoursOfShow(15, " 50m");
    } else if d == "27h 45m" {
      assert d == Show(27) + "h" + " 45m"; DurationHoursOfShow(27, " 45m");
    } else if d == "17h 20m" {
      assert d == Show(17) + "h" + " 20m"; DurationHoursOfShow(17, " 20m");
    } else if d == "21h 15m" {
      assert d == Show(21) + "h" + " 15m"; DurationHoursOfShow(21, " 15m");
    } else if d == "34h 30m" {
      assert d == Show(34) + "h" + " 30m"; DurationHoursOfShow(34, " 30m");
    } else {
      assert d == Show(8) + "h" + " 30m"; DurationHoursOfShow(8, " 30m");
    }
  }

  // ---------------------------------------------------------------------
  // The route checksum (hashCode)
  // ---------------------------------------------------------------------

  /**
   * The UTF-16 code units of a character: the character itself inside the
   * Basic Multilingual Plane, a surrogate pair above it.
   */
  function Utf16Units(c: char): (u: seq<nat>)
    ensures 1 <= |u| <= 2
    ensures |u| == 1 <==> c as int < 0x1_0000
    ensures |u| == 1 ==> u[0] == c as int
    ensures |u| == 2 ==> 0xD800 <= u[0] < 0xDC00 <= u[1] < 0xE000
    ensures |u| == 2 ==> 0x1_0000 + (u[0] - 0xD800) * 0x400 + (u[1] - 0xDC00) == c as int
  {
    var cp := c as int;
    if cp < 0x1_0000 then [cp]
    else [0xD800 + (cp - 0x1_0000) / 0x400, 0xDC00 + (cp - 0x1_0000) % 0x400]
  }

  /** The sum of `charCodeAt` over the code units of one character. */
  function UnitSum(c: char): (n: nat)
    ensures c as int < 0x1_0000 ==> n == c as int
    ensures n <= 0x1_BBFE
  {
    var u := Utf16Units(c);
    if |u| == 1 then u[0] else u[0] + u[1]
  }

  /**
   * `s.split('').reduce((acc, ch) => acc + ch.charCodeAt(0), 0)`, folded left:
   * every character's code units are part of the sum, and no character adds
   * more than 0xDBFF + 0xDFFF.
   */
  function Checksum(s: string): (r: nat)
    ensures forall i :: 0 <= i < |s| ==> UnitSum(s[i]) <= r
    ensures r <= 0x1_BBFE * |s|
  {
    if s == [] then 0 else Checksum(s[..|s| - 1]) + UnitSum(s[|s| - 1])
  }

  /** The checksum of a concatenation is the sum of the parts' checksums. */
  lemma {:induction false} ChecksumAppend(x: string, y: string)
    ensures Checksum(x + y) == Checksum(x) + Checksum(y)
    decreases |y|
  {
    if y != [] {
      assert (x + y)[..|x + y| - 1] == x + y[..|y| - 1];
      assert (x + y)[|x + y| - 1] == y[|y| - 1];
      ChecksumAppend(x, y[..|y| - 1]);
    } else {
      assert x + y == x;
    }
  }

  /** On text inside the Basic Multilingual Plane the checksum is the sum of the ordinals. */
  lemma {:induction false} ChecksumOfBmpText(s: string)
    requires forall i :: 0 <= i < |s| ==> s[i] as int < 0x1_0000
    ensures Checksum(s) == OrdinalSum(s)
  {
    if s != [] {
      ChecksumOfBmpText(s[..|s| - 1]);
    }
  }

  function OrdinalSum(s: string): (n: nat) {
    if s == [] then 0 else OrdinalSum(s[..|s| - 1]) + s[|s| - 1] as int
  }

  /** The checksum of `${from}-${to}`: both stations' checksums plus 45 for the hyphen. */
  function RouteHash(from: string, to: string): (h: nat)
    ensures h == Checksum(from) + 45 + Checksum(to)
  {
    ChecksumAppend(from + "-", to);
    ChecksumAppend(from, "-");
    Checksum(from + "-" + to)
  }

  /** Swapping the two stations never changes the checksum. */
  lemma RouteHashSymmetric(a: string, b: string)
    ensures RouteHash(a, b) == RouteHash(b, a)
  {
  }

  // ---------------------------------------------------------------------
  // The catalog and the selected window
  // ---------------------------------------------------------------------

  /** A catalog train; `coachClass` is the page's `class` field (`class` is reserved in Dafny). */
  datatype CatalogEntry = CatalogEntry(number: string, name: string, coachClass: string, price: string, amenities: seq<string>)

  const Catalog: seq<CatalogEntry> := [
    CatalogEntry("12951", "Mumbai Rajdhani Express", "1AC", "₹4,280", ["WiFi", "Food"]),
    CatalogEntry("12301", "Howrah Rajdhani Express", "1AC", "₹3,950", ["WiFi", "Food"]),
    CatalogEntry("12431", "Trivandrum Rajdhani", "2AC", "₹3,120", ["WiFi", "Food"]),
    CatalogEntry("12953", "August Kranti Rajdhani", "1AC", "₹4,180", ["WiFi", "Food"]),
    CatalogEntry("12809", "Howrah Mail Express", "3AC", "₹1,450", ["WiFi", "Food"]),
    CatalogEntry("12002", "Bhopal Shatabdi Express", "CC", "₹890", ["WiFi", "Food"]),
    CatalogEntry("12028", "Ahmedabad Shatabdi", "EC", "₹1,240", ["WiFi", "Food"]),
    CatalogEntry("12034", "Chennai Shatabdi", "CC", "₹920", ["WiFi", "Food"]),
    CatalogEntry("12009", "Lucknow Shatabdi Express", "EC", "₹1,180", ["WiFi", "Food"]),
    CatalogEntry("12259", "Sealdah Duronto Express", "3AC", "₹1,680", ["WiFi", "Food"]),
    CatalogEntry("12213", "Yuva Express", "SL", "₹485", ["Food"]),
    CatalogEntry("12413", "Jammu Tawi Express", "3AC", "₹1,520", ["WiFi", "Food"]),
    CatalogEntry("12137", "Punjab Mail Express", "2AC", "₹2,340", ["WiFi", "Food"]),
    CatalogEntry("12625", "Karnataka Express", "3AC", "₹1,750", ["WiFi", "Food"]),
    CatalogEntry("12239", "Begampura Express", "SL", "₹520", ["Food"]),
    CatalogEntry("12841", "Coromandel Express", "3AC", "₹1,620", ["WiFi", "Food"]),
    CatalogEntry("12563", "Bangalore Superfast", "2AC", "₹2,880", ["WiFi", "Food"]),
    CatalogEntry("12617", "Mangala Lakshadweep", "3AC", "₹1,580", ["Food"])
  ]

  /** The number of trains shown: 4, 5 or 6. */
  function TrainCount(hash: nat): (n: nat)
    ensures 4 <= n <= 6
    ensures n - 4 == hash % 3
  {
    4 + hash % 3
  }

  /** The first catalog index of the window; the window ends before the last entry. */
  function WindowStart(hash: nat): (s: nat)
    ensures s + TrainCount(hash) < |Catalog|
  {
    hash % (|Catalog| - TrainCount(hash))
  }

  /** `allTrains.slice(start, start + count)`: always a full window in catalog order. */
  function SelectTrains(hash: nat): (w: seq<CatalogEntry>)
    ensures |w| == TrainCount(hash)
    ensures forall j :: 0 <= j < |w| ==> w[j] == Catalog[WindowStart(hash) + j]
  {
    var start := WindowStart(hash);
    Catalog[start..start + TrainCount(hash)]
  }

  // ---------------------------------------------------------------------
  // The per-train derivation
  // ---------------------------------------------------------------------

  datatype Status = OnTime | Delayed | Cancelled

  const Statuses: seq<Status> := [OnTime, OnTime, OnTime, Delayed, Cancelled]

  /** The four weather messages and the empty fifth slot. */
  const WeatherConditions: seq<Option<string>> := [
    Some("Heavy rainfall expected near Surat - Possible 30 min delay"),
    Some("Fog conditions in NCR region - May cause 15-20 min delay"),
    Some("Clear weather expected - Smooth journey ahead"),
    Some("Thunderstorm alert near Nagpur - Minor delays expected"),
    None
  ]

  const Stations: seq<string> := [
    "Vadodara Junction (BRC)", "Surat Junction (ST)", "Vapi (VAPI)",
    "Borivali (BVI)", "Kanpur Central (CNB)", "Lucknow Junction (LJN)",
    "Varanasi Junction (BSB)", "Mugalsarai Junction (MGS)", "Gaya Junction (GAYA)",
    "Asansol Junction (ASN)", "Durgapur (DGR)", "Burdwan Junction (BWN)"
  ]

  /** A displayed time; neither field is wrapped unless the page wraps it. */
  datatype Clock = Clock(hour: nat, minute: nat) {
    /**
     * `${pad(hour)}:${pad(minute)}` with `padStart(2, '0')`: with both fields
     * below 100 it is the five characters "HH:MM".
     */
    function Text(): (s: string)
      ensures hour < 100 && minute < 100 ==>
        |s| == 5 && s[..2] == Pad2(hour) && s[2] == ':' && s[3..] == Pad2(minute)
    {
      var h, m := Pad2(hour), Pad2(minute);
      TwoPartTime(h, m);
      h + ":" + m
    }
  }

  /** Two two-character parts joined by a colon occupy positions 0-1 and 3-4. */
  lemma TwoPartTime(h: string, m: string)
    ensures var s := h + ":" + m;
      |h| == 2 && |m| == 2 ==> |s| == 5 && s[..2] == h && s[2] == ':' && s[3..] == m
  {
    var s := h + ":" + m;
    if |h| == 2 && |m| == 2 {
      assert s[..2] == h;
      assert s[3..] == m;
    }
  }

  datatype SelectedTrain = SelectedTrain(
    entry: CatalogEntry,
    departure: Clock,
    arrival: Clock,
    duration: string,
    distance: string,
    status: Status,
    delay: Option<string>,
    weatherImpact: Option<string>,
    nextStation: string,
    nextStationDistance: string,
    nextStationEta: Clock)

  /**
   * The train shown at position `index` of the window: its status comes from
   * the status table, a delay is shown exactly for a delayed train, the next
   * station is one of the table's, and both wrapped hours are below 24.
   */
  function MockTrain(entry: CatalogEntry, index: nat, hash: nat, metrics: RouteMetrics, hours: nat): (t: SelectedTrain)
    ensures t.entry == entry && t.status in Statuses && t.nextStation in Stations
    ensures t.delay.Some? <==> t.status == Delayed
    ensures t.arrival.hour < 24 && t.nextStationEta.hour < 24
  {
    var baseHour := 6 + index * 3;
    var status := Statuses[(hash + index) % |Statuses|];
    SelectedTrain(
      entry,
      Clock(baseHour, 15 + index * 10),
      Clock((baseHour + hours) % 24, 25 + index * 5),
      metrics.duration,
      metrics.distance,
      status,
      if status == Delayed then Some(Show(15 + index * 5) + " min") else None,
      WeatherConditions[(hash + index * 2) % |WeatherConditions|],
      Stations[(hash + index * 3) % |Stations|],
      Show(45 + index * 20) + " km",
      Clock((baseHour + 2) % 24, 30 + index * 5))
  }

  datatype SearchResult = SearchResult(metrics: RouteMetrics, trains: seq<SelectedTrain>)

  /** Everything one search derives from the two station labels. */
  function Synthesize(from: string, to: string): (r: SearchResult)
    ensures 4 <= |r.trains| <= 6 && |r.trains| == TrainCount(RouteHash(from, to))
    ensures r.metrics == GetRouteData(from, to)
    ensures forall i :: 0 <= i < |r.trains| ==> r.trains[i].entry == Catalog[WindowStart(RouteHash(from, to)) + i]
  {
    var hash := RouteHash(from, to);
    var metrics := GetRouteData(from, to);
    MetricsHaveHours(from, to);
    var hours := DurationHours(metrics.duration).value;
    var chosen := SelectTrains(hash);
    SearchResult(metrics, seq(|chosen|, i requires 0 <= i < |chosen| => MockTrain(chosen[i], i, hash, metrics, hours)))
  }

  /** Train `i` of a search is the one derived from window position `i`. */
  lemma TrainAt(from: string, to: string, i: nat)
    requires i < |Synthesize(from, to).trains|
    ensures DurationHours(GetRouteData(from, to).duration).Some?
    ensures var hash, metrics := RouteHash(from, to), GetRouteData(from, to);
      Synthesize(from, to).trains[i]
        == MockTrain(Catalog[WindowStart(hash) + i], i, hash, metrics, DurationHours(metrics.duration).value)
  {
    MetricsHaveHours(from, to);
  }

  /**
   * Every train shows the route's own duration and distance; the distance to
   * its next station grows by 20 km and its arrival minute by 5 per position.
   */
  lemma TrainRouteFields(from: string, to: string, i: nat)
    requires i < |Synthesize(from, to).trains|
    ensures var t := Synthesize(from, to).trains[i];
      && t.duration == GetRouteData(from, to).duration
      && t.distance == GetRouteData(from, to).distance
      && t.nextStationDistance == Show(45 + 20 * i) + " km"
      && t.arrival.minute == 25 + 5 * i
  {
    TrainAt(from, to, i);
  }

  /** The status follows the 3 : 1 : 1 table; a delay is shown exactly for delayed trains. */
  lemma StatusAndDelay(from: string, to: string, i: nat)
    requires i < |Synthesize(from, to).trains|
    ensures var t, k := Synthesize(from, to).trains[i], (RouteHash(from, to) + i) % 5;
      && (t.status == OnTime <==> k < 3)
      && (t.status == Delayed <==> k == 3)
      && (t.status == Cancelled <==> k == 4)
      && (t.delay.Some? <==> t.status == Delayed)
      && (t.delay.Some? ==> t.delay.value == Show(15 + 5 * i) + " min")
  {
    TrainAt(from, to, i);
  }

  /**
   * The weather note is slot (hash + 2i) mod 5 of the table: absent exactly on
   * the empty slot, and otherwise one of the four messages.
   */
  lemma WeatherNote(from: string, to: string, i: nat)
    requires i < |Synthesize(from, to).trains|
    ensures var t := Synthesize(from, to).trains[i];
      && (t.weatherImpact.None? <==> (RouteHash(from, to) + 2 * i) % 5 == 4)
      && t.weatherImpact == WeatherConditions[(RouteHash(from, to) + 2 * i) % 5]
      && (t.weatherImpact.Some? ==> Some(t.weatherImpact.value) in WeatherConditions[..4])
  {
    TrainAt(from, to, i);
    var k := (RouteHash(from, to) + 2 * i) % 5;
    assert k < 4 ==> WeatherConditions[k] == WeatherConditions[..4][k];
  }

  /** The next station is an entry of the station table, picked in steps of three. */
  lemma NextStation(from: string, to: string, i: nat)
    requires i < |Synthesize(from, to).trains|
    ensures Synthesize(from, to).trains[i].nextStation in Stations
    ensures Synthesize(from, to).trains[i].nextStation == Stations[(RouteHash(from, to) + 3 * i) % 12]
  {
    TrainAt(from, to, i);
  }

  /**
   * Hours: departure is never wrapped but stays at 21 or below; arrival and
   * the next-station time are wrapped below 24. Minutes are never wrapped:
   * only the sixth train's departure minute (65) leaves the range 0..59.
   */
  lemma TrainTimes(from: string, to: string, i: nat)
    requires i < |Synthesize(from, to).trains|
    ensures var t := Synthesize(from, to).trains[i];
      && t.departure == Clock(6 + 3 * i, 15 + 10 * i) && t.departure.hour <= 21
      && t.arrival.hour < 24 && t.nextStationEta.hour < 24
      && DurationHours(t.duration).Some?
      && t.arrival.hour == (6 + 3 * i + DurationHours(t.duration).value) % 24
      && t.nextStationEta == Clock((8 + 3 * i) % 24, 30 + 5 * i)
      && (t.departure.minute > 59 <==> i == 5)
      && t.arrival.minute <= 50 && t.nextStationEta.minute <= 55
  {
    TrainAt(from, to, i);
    MetricsHaveHours(from, to);
  }

  /** Rendered times: the first departure reads "06:15", the sixth "21:65". */
  lemma DepartureTexts()
    ensures Clock(6, 15).Text() == "06:15"
    ensures Clock(6 + 3 * 5, 15 + 10 * 5).Text() == "21:65"
  {
    assert Show(6) == "6" && Show(15) == "15";
    assert Show(21) == "21" && Show(65) == "65";
  }

  /** The whole result, train list included, is the same for (a, b) and (b, a). */
  lemma SynthesizeSymmetric(a: string, b: string)
    ensures Synthesize(a, b) == Synthesize(b, a)
  {
    RouteHashSymmetric(a, b);
    RouteDataSymmetric(a, b);
  }

  // ---------------------------------------------------------------------
  // Page state
  // ---------------------------------------------------------------------

  /** The two state fields of the page: the current route and its trains. */
  class IndexPage {
    var currentRoute: Option<Route>
    var trains: seq<SelectedTrain>

    constructor ()
      ensures currentRoute == None && trains == []
    {
      currentRoute := None;
      trains := [];
    }

    /** `handleRouteSearch`: both fields are replaced wholesale. */
    method HandleRouteSearch(from: string, to: string)
      modifies this
      ensures currentRoute == Some(Route(from, to))
      ensures trains == Synthesize(from, to).trains
      ensures 4 <= |trains| <= 6
    {
      currentRoute := Some(Route(from, to));
      trains := Synthesize(from, to).trains;
    }
  }
}
