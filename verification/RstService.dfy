// The controller's front end to the seeder: it turns the lists of a resource
// into maps, in which the last entry of a name wins
// (controller/pkg/rstservice/rstservice.go).
module RstService {
  import opened Wire
  import opened Engine
  import opened Runs
  import opened SeederImpl
  import opened Seeder
  import opened Bags
  import Stains

  datatype SeederConfig = SeederConfig(name: string, action: Slot)

  datatype NamedAuth = NamedAuth(name: string, auth: AuthConfig)

  datatype StrategySpec = StrategySpec(seeders: seq<SeederConfig>, auth: seq<NamedAuth>)

  // No later entry has the same name.
  predicate IsLast(seeders: seq<SeederConfig>, n: nat, i: nat)
    requires i < n <= |seeders|
  {
    forall j :: i < j < n ==> seeders[j].name != seeders[i].name
  }

  predicate IsLastAuth(auth: seq<NamedAuth>, n: nat, i: nat)
    requires i < n <= |auth|
  {
    forall j :: i < j < n ==> auth[j].name != auth[i].name
  }

  // The map holds exactly the last entry of each name.
  ghost predicate LastWins(seeders: seq<SeederConfig>, n: nat, m: map<string, Slot>)
    requires n <= |seeders|
  {
    && m.Keys == (set i | 0 <= i < n :: seeders[i].name)
    && forall i :: 0 <= i < n && IsLast(seeders, n, i) ==> m[seeders[i].name] == seeders[i].action
  }

  // Every entry of the map is one of the list's.
  lemma {:induction false} WinnerOf(seeders: seq<SeederConfig>, n: nat, name: string) returns (i: nat)
    requires n <= |seeders| && exists k :: 0 <= k < n && seeders[k].name == name
    ensures i < n && seeders[i].name == name && IsLast(seeders, n, i)
  {
    if seeders[n - 1].name == name {
      i := n - 1;
    } else {
      i := WinnerOf(seeders, n - 1, name);
    }
  }

  lemma WinnersAreClean(seeders: seq<SeederConfig>, m: map<string, Slot>)
    requires LastWins(seeders, |seeders|, m) && Unused(seeders)
    ensures forall k <- m :: Clean(m[k])
  {
    forall k | k in m ensures Clean(m[k]) {
      var i := WinnerOf(seeders, |seeders|, k);
    }
  }

  // The action of an entry as it is run.
  function Given(c: SeederConfig): Action
    reads c.action.variables
  {
    Supplied(c.action).(name := c.name)
  }

  predicate OtherName(a: Action, b: Action) {
    a.name != b.name
  }

  // No entry's action has been run.
  ghost predicate Unused(seeders: seq<SeederConfig>) {
    forall i :: 0 <= i < |seeders| ==> Clean(seeders[i].action)
  }

  // The actions that a run of a list performs.
  ghost function Winners(seeders: seq<SeederConfig>): (w: set<Action>)
    reads MapsOf(seeders)
  {
    set i | 0 <= i < |seeders| && IsLast(seeders, |seeders|, i) :: Given(seeders[i])
  }

  ghost function MapsOf(seeders: seq<SeederConfig>): set<VarMap?> {
    set i | 0 <= i < |seeders| :: seeders[i].action.variables
  }

  ghost predicate Members(acts: seq<Action>, w: set<Action>) {
    forall a :: a in acts <==> a in w
  }

  lemma NamesOnce(m: map<string, Slot>, names: seq<string>, i: nat, j: nat)
    requires Listed(m, names, {}) && i < j < |names|
    ensures names[i] != names[j]
  {
    if names[i] == names[j] {
      TwiceIn(names, i, j);
    }
  }

  lemma IsWinner(seeders: seq<SeederConfig>, m: map<string, Slot>, names: seq<string>, i: nat) returns (k: nat)
    requires LastWins(seeders, |seeders|, m) && Listed(m, names, {}) && i < |names|
    ensures k < |seeders| && IsLast(seeders, |seeders|, k)
    ensures Added(m, names)[i].variables == seeders[k].action.variables
    ensures Supplied(Added(m, names)[i]) == Given(seeders[k])
  {
    assert names[i] in m;
    k := WinnerOf(seeders, |seeders|, names[i]);
  }

  lemma WinnerIsStored(seeders: seq<SeederConfig>, m: map<string, Slot>, names: seq<string>, k: nat) returns (i: nat)
    requires LastWins(seeders, |seeders|, m) && Listed(m, names, {})
    requires k < |seeders| && IsLast(seeders, |seeders|, k)
    ensures i < |names| && Supplied(Added(m, names)[i]) == Given(seeders[k])
  {
    assert m.Keys - {} == m.Keys && seeders[k].name in m;
    assert seeders[k].name in multiset(names);
    i :| 0 <= i < |names| && names[i] == seeders[k].name;
  }

  lemma StoredOnce(seeders: seq<SeederConfig>, m: map<string, Slot>, names: seq<string>, acts: seq<Action>)
    requires LastWins(seeders, |seeders|, m) && Listed(m, names, {}) && acts == SuppliedAll(Added(m, names))
    ensures Members(acts, Winners(seeders)) && Pairwise(OtherName, acts)
    ensures VarMaps(Added(m, names)) <= MapsOf(seeders)
  {
    forall i, j | 0 <= i < j < |acts| ensures OtherName(acts[i], acts[j]) {
      NamesOnce(m, names, i, j);
    }
    forall i | 0 <= i < |acts| ensures Added(m, names)[i].variables in MapsOf(seeders) && acts[i] in Winners(seeders) {
      var k := IsWinner(seeders, m, names, i);
    }
    forall k | 0 <= k < |seeders| && IsLast(seeders, |seeders|, k) ensures Given(seeders[k]) in acts {
      var i := WinnerIsStored(seeders, m, names, k);
      assert acts[i] == Given(seeders[k]);
    }
  }

  lemma MoreSupplied(s: seq<Slot>, t: seq<Slot>)
    ensures SuppliedAll(s + t) == SuppliedAll(s) + SuppliedAll(t)
    ensures VarMaps(s + t) <= VarMaps(s) + VarMaps(t)
  {
  }

  class Service<!S(!new)> {
    const seeder: StrategyRestSeeder<S>

    constructor (seeder: StrategyRestSeeder<S>)
      ensures this.seeder == seeder
    {
      this.seeder := seeder;
    }

    method SortActions(seeders: seq<SeederConfig>) returns (m: map<string, Slot>)
      ensures LastWins(seeders, |seeders|, m)
    {
      m := map[];
      for n := 0 to |seeders|
        invariant LastWins(seeders, n, m)
      {
        forall i | 0 <= i < n && IsLast(seeders, n + 1, i) ensures IsLast(seeders, n, i) {
        }
        m := m[seeders[n].name := seeders[n].action];
      }
    }

    method SortAuth(auth: seq<NamedAuth>) returns (m: AuthMap)
      ensures m.Keys == (set i | 0 <= i < |auth| :: auth[i].name)
      ensures forall i :: 0 <= i < |auth| && IsLastAuth(auth, |auth|, i) ==> m[auth[i].name] == auth[i].auth
    {
      m := map[];
      for n := 0 to |auth|
        invariant m.Keys == (set i | 0 <= i < n :: auth[i].name)
        invariant forall i :: 0 <= i < n && IsLastAuth(auth, n, i) ==> m[auth[i].name] == auth[i].auth
      {
        forall i | 0 <= i < n && IsLastAuth(auth, n + 1, i) ensures IsLastAuth(auth, n, i) {
        }
        m := m[auth[n].name := auth[n].auth];
      }
    }

    // New services have no configmanager.
    ghost predicate Valid()
      reads this, seeder
    {
      seeder.Valid() && seeder.configManager.None?
    }

    // Hands the winners of the list to the seeder, after what it has.
    method PrepareActions(seeders: seq<SeederConfig>) returns (ghost stored: seq<Action>)
      requires Valid() && Unused(seeders)
      modifies seeder`actions
      ensures Valid() && VarMaps(seeder.actions) <= old(VarMaps(seeder.actions)) + MapsOf(seeders)
      ensures SuppliedAll(seeder.actions) == old(SuppliedAll(seeder.actions)) + stored
      ensures Members(stored, Winners(seeders)) && Pairwise(OtherName, stored)
    {
      var m := SortActions(seeders);
      WinnersAreClean(seeders, m);
      ghost var before := seeder.actions;
      ghost var names := seeder.WithActions(m);
      stored := SuppliedAll(Added(m, names));
      StoredOnce(seeders, m, names, stored);
      MoreSupplied(before, Added(m, names));
    }

    method Prepare(spec: StrategySpec) returns (ghost stored: seq<Action>)
      requires Valid() && Unused(spec.seeders)
      modifies seeder`actions, seeder`authInstructions, seeder.rest`auth
      ensures Valid() && VarMaps(seeder.actions) <= old(VarMaps(seeder.actions)) + MapsOf(spec.seeders)
      ensures SuppliedAll(seeder.actions) == old(SuppliedAll(seeder.actions)) + stored
      ensures Members(stored, Winners(spec.seeders)) && Pairwise(OtherName, stored)
    {
      stored := PrepareActions(spec.seeders);
      var a := SortAuth(spec.auth);
      seeder.WithAuth(a);
    }

    // The seeder's run, whatever maps its actions share.
    method Run(ghost supplied: seq<Action>, ghost start: World<S>)
      returns (errs: seq<Error>, ghost given: seq<Action>, ghost payload: string)
      requires Valid() && supplied == SuppliedAll(seeder.actions) && start == seeder.rest.Now("")
      modifies seeder, seeder.rest, seeder.rest.process, seeder.rest.client, VarMaps(seeder.actions)
      ensures Valid() && seeder.failFast == old(seeder.failFast)
      ensures multiset(given) == multiset(supplied) && Sorted(given)
      ensures var (w, errs') := Runs.Execute(seeder.rest.Here(), None, seeder.failFast, given, start);
              Stains.Alike(w, seeder.rest.Now(payload)) && errs == errs'
    {
      ghost var acts;
      errs, given, acts, payload := seeder.Execute();
      Stains.TurnsDoNotMatter(seeder.rest.Here(), None, seeder.failFast, given, acts, start);
    }

    // One synchronisation: the winners of the list, each once, and whatever
    // earlier ones have stored, in an order that respects Order (`given`).
    method Execute(spec: StrategySpec)
      returns (errs: seq<Error>, ghost stored: seq<Action>, ghost given: seq<Action>, ghost payload: string)
      requires Valid() && Unused(spec.seeders)
      modifies seeder, seeder.rest, seeder.rest.process, seeder.rest.client, VarMaps(seeder.actions),
          MapsOf(spec.seeders)
      ensures Valid()
      ensures Members(stored, old(Winners(spec.seeders))) && Pairwise(OtherName, stored)
      ensures multiset(given) == multiset(old(SuppliedAll(seeder.actions)) + stored) && Sorted(given)
      ensures var (w, errs') :=
                Runs.Execute(seeder.rest.Here(), None, old(seeder.failFast), given, old(seeder.rest.Now("")));
              Stains.Alike(w, seeder.rest.Now(payload)) && errs == errs'
    {
      ghost var before := seeder.rest.Now("");
      stored := Prepare(spec);
      assert Winners(spec.seeders) == old(Winners(spec.seeders));
      errs, given, payload := Run(SuppliedAll(seeder.actions), before);
    }
  }
}
