/**
 Which rider Assign picks. Redis answers a geo search with the nearest members in order,
 cut at ten; some members may be stale or not riders at all. The pick is still the nearest.
 */
module Nearest {
  import opened Options
  import opened Lifecycle
  import opened System
  import opened Locking
  import opened Runs
  import opened Cluster
  import opened Deliveries
  import opened Assignment

  const SEARCH_RADIUS_KM := 25.0
  const CANDIDATE_LIMIT := 10

  /** Distance from the pickup of every member of the index; member names are arbitrary strings. */
  type GeoIndex = map<string, real>

  predicate InRadius(geo: GeoIndex, m: string) {
    m in geo && geo[m] <= SEARCH_RADIUS_KM
  }

  /** GEOSEARCH ... ASC COUNT 10: members in the radius, nearest first, cut at the limit. */
  ghost predicate IsSearchResult(geo: GeoIndex, names: seq<string>) {
    && |names| <= CANDIDATE_LIMIT
    && (forall i :: 0 <= i < |names| ==> InRadius(geo, names[i]))
    && (forall i, j :: 0 <= i < j < |names| ==> geo[names[i]] <= geo[names[j]])
    && (forall m :: InRadius(geo, m) && m !in names ==>
          |names| == CANDIDATE_LIMIT && forall i :: 0 <= i < |names| ==> geo[names[i]] <= geo[m])
  }

  /** The riders that the names denote, in order; `parse` is the UUID parser. */
  function Parsed(parse: string -> Option<RiderId>, names: seq<string>): seq<RiderId> {
    if names == [] then []
    else
      var rest := Parsed(parse, names[..|names|-1]);
      match parse(names[|names|-1])
      case None => rest
      case Some(r) => rest + [r]
  }

  /** The parsing loop of nearestAvailableRiders, which skips what is not a UUID. */
  method NearestAvailableRiders(parse: string -> Option<RiderId>, names: seq<string>) returns (out: seq<RiderId>)
    ensures out == Parsed(parse, names)
  {
    out := [];
    for i := 0 to |names|
      invariant out == Parsed(parse, names[..i])
    {
      assert names[..i+1][..i] == names[..i];
      var id := parse(names[i]);
      if id.Some? {
        out := out + [id.value];
      }
    }
    assert names[..|names|] == names;
  }

  predicate DenotesAvailable(parse: string -> Option<RiderId>, riders: map<RiderId, RiderStatus>, m: string) {
    parse(m).Some? && parse(m).value in riders && riders[parse(m).value] == Available
  }

  lemma {:induction false} FirstAvailableSnoc(riders: map<RiderId, RiderStatus>, xs: seq<RiderId>, r: RiderId)
    ensures FirstAvailable(riders, xs + [r]) ==
            if FirstAvailable(riders, xs).Some? then FirstAvailable(riders, xs)
            else if r in riders && riders[r] == Available then Some(r) else None
  {
    if xs != [] {
      assert (xs + [r])[1..] == xs[1..] + [r];
      FirstAvailableSnoc(riders, xs[1..], r);
    }
  }

  /** The first AVAILABLE rider among the parsed names is denoted by the first name that denotes one. */
  lemma {:induction false} FirstName(parse: string -> Option<RiderId>, riders: map<RiderId, RiderStatus>,
                                     names: seq<string>)
    returns (k: nat)
    ensures k <= |names| && forall i :: 0 <= i < k ==> !DenotesAvailable(parse, riders, names[i])
    ensures var first := FirstAvailable(riders, Parsed(parse, names));
            if k == |names| then first == None
            else DenotesAvailable(parse, riders, names[k]) && first == parse(names[k])
  {
    if names == [] {
      k := 0;
    } else {
      var n := |names| - 1;
      k := FirstName(parse, riders, names[..n]);
      if parse(names[n]).Some? {
        FirstAvailableSnoc(riders, Parsed(parse, names[..n]), parse(names[n]).value);
      }
      if k == n && !DenotesAvailable(parse, riders, names[n]) {
        k := n + 1;
      }
    }
  }

  /** Rider r is indexed in the radius, and no AVAILABLE rider indexed in the radius is nearer. */
  ghost predicate IsNearest(geo: GeoIndex, parse: string -> Option<RiderId>, riders: map<RiderId, RiderStatus>,
                            r: RiderId) {
    exists m :: InRadius(geo, m) && parse(m) == Some(r) &&
                forall m' :: InRadius(geo, m') && DenotesAvailable(parse, riders, m') ==> geo[m] <= geo[m']
  }

  /**
   Despite the cut at ten, stale members and junk names: the rider picked is a nearest one;
   if none is, no returned member denotes an AVAILABLE rider, and a search that was not
   cut means there is none in the radius.
   */
  lemma PickIsNearest(geo: GeoIndex, parse: string -> Option<RiderId>, riders: map<RiderId, RiderStatus>,
                      names: seq<string>)
    requires IsSearchResult(geo, names)
    ensures match FirstAvailable(riders, Parsed(parse, names))
            case Some(r) => r in riders && riders[r] == Available && IsNearest(geo, parse, riders, r)
            case None =>
              && (forall i :: 0 <= i < |names| ==> !DenotesAvailable(parse, riders, names[i]))
              && (|names| < CANDIDATE_LIMIT ==> forall m :: InRadius(geo, m) ==> !DenotesAvailable(parse, riders, m))
  {
    var k := FirstName(parse, riders, names);
    if k < |names| {
      var m := names[k];
      forall m' | InRadius(geo, m') && DenotesAvailable(parse, riders, m') ensures geo[m] <= geo[m'] {
        if m' in names {
          var j :| 0 <= j < |names| && names[j] == m';
          assert j >= k;
        }
      }
      assert InRadius(geo, m) && parse(m) == FirstAvailable(riders, Parsed(parse, names));
    }
  }

  /** After a calm delivery the tables show the pick. */
  ghost predicate ShowsPick(s: State, s': State, o: OrderId, geo: GeoIndex, parse: string -> Option<RiderId>,
                            names: seq<string>, claimed: bool) {
    if claimed then
      && o in s'.orders && s'.orders[o].rider.Some?
      && var r := s'.orders[o].rider.value;
         r in s.riders && s.riders[r] == Available && s'.riders == s.riders[r := Busy]
         && IsNearest(geo, parse, s.riders, r)
    else
      && s'.riders == s.riders && o in s'.orders && s'.orders[o].status != Placed
      && (|names| < CANDIDATE_LIMIT ==>
            forall m :: InRadius(geo, m) ==> !DenotesAvailable(parse, s.riders, m))
  }

  lemma NearestOnTables(s: State, s': State, o: OrderId, geo: GeoIndex, parse: string -> Option<RiderId>,
                        names: seq<string>)
    requires IsSearchResult(geo, names) && o in s.orders
    requires s' == AfterDelivery(s, o, Parsed(parse, names)).(procs := s'.procs)
    ensures ShowsPick(s, s', o, geo, parse, names, FirstAvailable(s.riders, Parsed(parse, names)).Some?)
  {
    hide AfterDelivery, FirstAvailable, IsNearest, IsSearchResult, Parsed, InRadius, DenotesAvailable, ShowsPick;
    PickIsNearest(geo, parse, s.riders, names);
    TablesAfterDelivery(s, s', o, Parsed(parse, names));
    match FirstAvailable(s.riders, Parsed(parse, names))
    case Some(r) => ClaimShowsPick(s, s', o, geo, parse, names, r);
    case None => NoneShowsPick(s, s', o, geo, parse, names);
  }

  lemma TablesAfterDelivery(s: State, s': State, o: OrderId, candidates: seq<RiderId>)
    requires o in s.orders && s' == AfterDelivery(s, o, candidates).(procs := s'.procs)
    ensures o in s'.orders
    ensures match FirstAvailable(s.riders, candidates)
            case Some(r) => s'.orders[o].rider == Some(r) && s'.riders == s.riders[r := Busy]
            case None => s'.riders == s.riders && s'.orders[o].status != Placed
  {
    hide FirstAvailable, AfterTx;
    match FirstAvailable(s.riders, candidates)
    case Some(r) => TxTables(s, o, OrderAssigned(r));
    case None => TxTables(s, o, NoRider);
  }

  lemma TxTables(s: State, o: OrderId, e: Event)
    requires o in s.orders
    ensures AfterTx(s, o, e).orders == WriteOrder(s.orders, o, e)
    ensures AfterTx(s, o, e).riders == if e.OrderAssigned? then s.riders[e.rider := Busy] else s.riders
  {
  }

  lemma ClaimShowsPick(s: State, s': State, o: OrderId, geo: GeoIndex, parse: string -> Option<RiderId>,
                       names: seq<string>, r: RiderId)
    requires o in s'.orders && s'.orders[o].rider == Some(r) && s'.riders == s.riders[r := Busy]
    requires r in s.riders && s.riders[r] == Available && IsNearest(geo, parse, s.riders, r)
    ensures ShowsPick(s, s', o, geo, parse, names, true)
  {
    hide IsNearest;
  }

  lemma NoneShowsPick(s: State, s': State, o: OrderId, geo: GeoIndex, parse: string -> Option<RiderId>,
                      names: seq<string>)
    requires s'.riders == s.riders && o in s'.orders && s'.orders[o].status != Placed
    requires |names| < CANDIDATE_LIMIT ==> forall m :: InRadius(geo, m) ==> !DenotesAvailable(parse, s.riders, m)
    ensures ShowsPick(s, s', o, geo, parse, names, false)
  {
    hide IsNearest, InRadius, DenotesAvailable;
  }

  /** The whole of Assign from the search answer on: the order's rider is a nearest AVAILABLE one. */
  method AssignNearest(service: Assignments, p: ProcId, offset: nat, parse: string -> Option<RiderId>,
                       ghost geo: GeoIndex,
                       names: seq<string>, tick: nat -> Tick)
    returns (out: Outcome)
    requires service.stores.Valid() && p !in service.stores.s.procs && IsSearchResult(geo, names)
    requires offset < |service.stores.s.log| && service.stores.s.log[offset].event.OrderPlaced?
    modifies service.stores
    ensures service.stores.Valid()
    ensures HandledOk(out) ==> Resolved(service.stores.s, old(service.stores.s.log[offset].order))
    ensures Calm(old(service.stores.s), tick) ==>
              ShowsPick(old(service.stores.s), service.stores.s, old(service.stores.s.log[offset].order), geo, parse,
                        names, out.Claimed?)
  {
    hide Exec, AfterDelivery, FirstAvailable, Parsed, IsNearest, IsSearchResult, WholeDelivery, PassesOnlyUnavailable,
      Calm, Resolved;
    ghost var s, o, calm := service.stores.s, service.stores.s.log[offset].order, Calm(service.stores.s, tick);
    InvAlways(service.stores.acts);
    assert o in s.orders && s.log[offset].order == o;
    hide Inv;
    var candidates := NearestAvailableRiders(parse, names);
    ghost var starts, last;
    out, starts, last := service.Assign(p, offset, Some(candidates), tick);
    if calm {
      NearestOnTables(s, service.stores.s, o, geo, parse, names);
    }
  }
}
