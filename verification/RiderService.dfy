/**
 internal/rider: registration and shift changes, whose database write and geo index update are
 separate statements. SetStatus writes AVAILABLE before it looks for coordinates, so an error
 does not mean that nothing happened.
 */
module RiderService {
  import opened Options
  import opened System
  import opened Cluster

  /** StoreFailed stands for an error of Postgres or Redis. */
  datatype RiderError = NoSuchRider | BadRequest | StoreFailed

  /** One rider has got a status; nothing else in the stores has changed. */
  ghost predicate RiderWritten(s: State, s': State, r: RiderId, status: RiderStatus) {
    && s'.riders == s.riders[r := status] && s'.journal == s.journal + [RiderCommit(r, status)]
    && s' == s.(riders := s'.riders, journal := s'.journal)
  }

  lemma StepKeepsRider(s: State, a: Action, r: RiderId)
    requires r in s.riders
    ensures r in Step(s, a).riders
  {
    if !a.CommitTx? && !RiderStep(a) {
      StepFrame(s, a);
      hide Step;
    }
  }

  /** Riders are never deleted. */
  lemma {:induction false} RiderStays(acts: seq<Action>, acts': seq<Action>, r: RiderId)
    requires acts <= acts' && r in Exec(acts).riders
    ensures r in Exec(acts').riders
    decreases |acts'|
  {
    hide Exec, Step;
    if |acts| < |acts'| {
      var before := acts'[..|acts'|-1];
      assert acts' == before + [acts'[|acts'|-1]];
      RiderStays(acts, before, r);
      ExecSnoc(before, acts'[|acts'|-1]);
      StepKeepsRider(Exec(before), acts'[|acts'|-1], r);
    } else {
      assert acts == acts';
    }
  }

  class Riders {
    const stores: Stores
    /** The members of the geo index, as far as this service has written them. */
    var geo: set<RiderId>

    constructor (stores: Stores)
      ensures this.stores == stores && geo == {}
    {
      this.stores := stores;
      geo := {};
    }

    /** Repository.Create under the new id r: a rider starts OFFLINE, or nothing is written. */
    method Register(r: RiderId, tick: nat -> Tick) returns (res: Result<RiderStatus, RiderError>)
      requires stores.Valid()
      modifies stores
      ensures stores.Valid() && old(stores.acts) <= stores.acts
      ensures var s := Exec(Met(old(stores.acts), tick, 0, Request));
              && res == (if tick(0).ok && r !in s.riders then Ok(Offline) else Err(StoreFailed))
              && (if res.Ok? then RiderWritten(s, stores.s, r, Offline) else stores.s == s)
    {
      hide Exec;
      stores.Interfere(tick(0).env, Request);
      if !tick(0).ok || r in stores.s.riders {
        return Err(StoreFailed);
      }
      stores.Do(RegisterRider(r));
      return Ok(Offline);
    }

    /** Repository.SetStatus: one UPDATE, whatever the row's status was, a claim's BUSY included. */
    method WriteStatus(r: RiderId, status: RiderStatus, tick: nat -> Tick) returns (res: Result<(), RiderError>)
      requires stores.Valid()
      modifies stores
      ensures stores.Valid() && old(stores.acts) <= stores.acts
      ensures var at := Met(old(stores.acts), tick, 0, Request);
              var s := Exec(at);
              && res == (if !tick(0).ok || !RiderFree(s, r) then Err(StoreFailed)
                         else if r !in s.riders then Err(NoSuchRider) else Ok(()))
              && (if res.Ok? then
                    stores.acts == at + [SetRider(r, status)] && RiderWritten(s, stores.s, r, status)
                  else stores.s == s)
    {
      hide Exec, Others;
      stores.Interfere(tick(0).env, Request);
      if !tick(0).ok || !RiderFree(stores.s, r) {
        return Err(StoreFailed);
      }
      if r !in stores.s.riders {
        return Err(NoSuchRider);
      }
      stores.Do(SetRider(r, status));
      return Ok(());
    }

    /**
     Service.SetStatus. The row is written before the coordinates are checked; the index then
     follows, if Redis answers. `located` says whether the request has coordinates.
     */
    method SetStatus(r: RiderId, status: RiderStatus, located: bool, tick: nat -> Tick)
      returns (res: Result<RiderStatus, RiderError>)
      requires stores.Valid()
      modifies stores, this`geo
      ensures stores.Valid() && old(stores.acts) <= stores.acts
      ensures var at := Met(old(stores.acts), tick, 0, Request);
              var s := Exec(at);
              if !tick(0).ok || !RiderFree(s, r) then res == Err(StoreFailed) && stores.s == s && geo == old(geo)
              else if r !in s.riders then res == Err(NoSuchRider) && stores.s == s && geo == old(geo)
              else
                && at + [SetRider(r, status)] <= stores.acts
                && RiderWritten(s, Exec(at + [SetRider(r, status)]), r, status)
                && r in stores.s.riders
                && var read: Result<RiderStatus, RiderError> :=
                     if tick(2).ok then Ok(stores.s.riders[r]) else Err(StoreFailed);
                   if status != Available then res == read && geo == if tick(1).ok then old(geo) - {r} else old(geo)
                   else if !located then
                     res == Err(BadRequest) && geo == old(geo) && stores.acts == at + [SetRider(r, status)]
                   else if !tick(1).ok then res == Err(StoreFailed) && geo == old(geo)
                   else res == read && geo == old(geo) + {r}
    {
      hide Exec, Others, Step, Met;
      var wrote := WriteStatus(r, status, tick);
      if wrote.Err? {
        return Err(wrote.error);
      }
      ghost var written := stores.acts;
      if status == Available && !located {
        return Err(BadRequest);
      }
      stores.Interfere(tick(1).env, Request);
      if status == Available {
        if !tick(1).ok {
          RiderStays(written, stores.acts, r);
          return Err(StoreFailed);
        }
        geo := geo + {r};
      } else if tick(1).ok {
        geo := geo - {r};
      }
      stores.Interfere(tick(2).env, Request);
      RiderStays(written, stores.acts, r);
      res := if tick(2).ok then Ok(stores.s.riders[r]) else Err(StoreFailed);
    }
  }

  /**
   So after SetStatus to AVAILABLE without coordinates, undisturbed, the request is refused and
   the rider is AVAILABLE all the same, without having been put in the index.
   */
  method RefusedButAvailable(service: Riders, r: RiderId, tick: nat -> Tick)
    returns (res: Result<RiderStatus, RiderError>)
    requires service.stores.Valid() && r in service.stores.s.riders && RiderFree(service.stores.s, r)
    requires Undisturbed(tick) && Faultless(tick)
    modifies service, service.stores
    ensures res == Err(BadRequest) && service.geo == old(service.geo)
    ensures r in service.stores.s.riders && service.stores.s.riders[r] == Available
  {
    hide Exec;
    Quiet(service.stores.acts, tick, 0, Request);
    res := service.SetStatus(r, Available, false, tick);
  }
}
