/** The simulations table's entry points (convex/simulations.ts): an
    authenticated insert with name validation, the caller's records newest
    first, and an owner-checked lookup. */
module Simulations {
  import opened Wrappers
  import opened Schema

  /** The authenticated caller, if any; `subject` is the caller's user id. */
  datatype Identity = Identity(subject: UserId)

  /** A simulation document as a query returns it: its id and its fields. */
  datatype SimulationDoc = SimulationDoc(id: nat, doc: Simulation)

  const Unauthorized := "Unauthorized - please sign in"
  const InvalidName := "Invalid simulation name"
  const MaxNameLength := 255

  predicate ValidName(name: string)
  {
    name != "" && |name| <= MaxNameLength
  }

  /** The table after `createSimulation`, or the error it throws. */
  function Created(t: Tables, caller: Option<Identity>, name: string, now: int): (r: Result<Tables>)
    ensures caller.None? ==> r == Err(Unauthorized)
    ensures caller.Some? && !ValidName(name) ==> r == Err(InvalidName)
    ensures caller.Some? && ValidName(name) ==> r.Ok?
    ensures r.Ok? ==> && r.value.users == t.users && r.value.transactions == t.transactions
                      && r.value.simulations == t.simulations + [Simulation(caller.value.subject, name, "pending", now)]
  {
    if caller.None? then Err(Unauthorized)
    else if !ValidName(name) then Err(InvalidName)
    else Ok(t.(simulations := t.simulations + [Simulation(caller.value.subject, name, "pending", now)]))
  }

  /** `createSimulation`: returns the new record's id. */
  method CreateSimulation(db: Database, caller: Option<Identity>, name: string, now: int)
    returns (result: Result<nat>)
    modifies db
    ensures Created(old(db.Snapshot()), caller, name, now).Err? ==>
              result == Err(Created(old(db.Snapshot()), caller, name, now).error) &&
              db.Snapshot() == old(db.Snapshot())
    ensures Created(old(db.Snapshot()), caller, name, now).Ok? ==>
              result == Ok(|old(db.simulations)|) &&
              db.Snapshot() == Created(old(db.Snapshot()), caller, name, now).value
  {
    if caller.None? {
      return Err(Unauthorized);
    }
    if name == "" || |name| > MaxNameLength {
      return Err(InvalidName);
    }
    result := Ok(|db.simulations|);
    db.simulations := db.simulations + [Simulation(caller.value.subject, name, "pending", now)];
  }

  /** The records of `owner`, newest (highest id) first. */
  function OwnedNewestFirst(sims: seq<Simulation>, owner: UserId): (r: seq<SimulationDoc>)
    ensures forall d :: d in r ==> d.id < |sims| && sims[d.id] == d.doc && d.doc.userId == owner
    ensures forall i :: 0 <= i < |sims| && sims[i].userId == owner ==> SimulationDoc(i, sims[i]) in r
    ensures forall k, l :: 0 <= k < l < |r| ==> r[k].id > r[l].id
  {
    if |sims| == 0 then []
    else
      var last := |sims| - 1;
      var rest := OwnedNewestFirst(sims[..last], owner);
      assert forall i :: 0 <= i < last ==> sims[..last][i] == sims[i];
      if sims[last].userId == owner then [SimulationDoc(last, sims[last])] + rest else rest
  }

  /** `getUserSimulations`. */
  function UserSimulations(t: Tables, caller: Option<Identity>): (r: seq<SimulationDoc>)
    ensures caller.None? ==> r == []
  {
    if caller.None? then [] else OwnedNewestFirst(t.simulations, caller.value.subject)
  }

  /** `getSimulation`. */
  function GetSimulation(t: Tables, caller: Option<Identity>, id: nat): (r: Option<Simulation>)
    ensures r.Some? <==> caller.Some? && id < |t.simulations| && t.simulations[id].userId == caller.value.subject
    ensures r.Some? ==> r.value == t.simulations[id]
  {
    if caller.None? then None
    else if id >= |t.simulations| || t.simulations[id].userId != caller.value.subject then None
    else Some(t.simulations[id])
  }

  /** What a successful create inserts is, at once, the first of the
      owner's list and found by its id, and invisible to every other user. */
  lemma {:induction false} CreatedIsVisibleToOwnerOnly(t: Tables, owner: UserId, other: UserId, name: string, now: int)
    requires ValidName(name) && other != owner
    ensures var r := Created(t, Some(Identity(owner)), name, now).value;
      var id := |t.simulations|;
      && GetSimulation(r, Some(Identity(owner)), id) == Some(Simulation(owner, name, "pending", now))
      && UserSimulations(r, Some(Identity(owner)))[0] == SimulationDoc(id, Simulation(owner, name, "pending", now))
      && GetSimulation(r, Some(Identity(other)), id) == None
      && UserSimulations(r, Some(Identity(other))) == UserSimulations(t, Some(Identity(other)))
  {
    var r := Created(t, Some(Identity(owner)), name, now).value;
    assert r.simulations[..|t.simulations|] == t.simulations;
  }

  /** Creating a simulation never changes a credit balance or the ledger. */
  lemma CreateLeavesCredits(t: Tables, caller: Option<Identity>, name: string, now: int)
    ensures var r := Created(t, caller, name, now);
      r.Ok? ==> r.value.users == t.users && r.value.transactions == t.transactions
  {
  }
}
