/** The table of callbacks by method name, and the registrations that change it. */
module MethodRegistry {
  import opened Wrappers

  /** A callback, by the item of the interface it serves. */
  datatype Handler =
    | MethodHandler(item: nat)
    | SubscribeHandler(item: nat, notif: string)
    | UnsubscribeHandler(item: nat)

  type Registry = map<string, Handler>

  datatype RegisterError =
    | AlreadyRegistered(name: string)
    | SubscriptionNameConflict(name: string)
    | MethodNotFound(name: string)

  datatype Registration =
    | RegisterMethod(name: string, item: nat)
    | RegisterSubscription(name: string, notif: string, unsubscribe: string, item: nat)
    | RegisterAlias(name: string, existing: string)

  /** What a registration does to the table; if it fails the table stays. */
  function Apply(table: Registry, r: Registration): (result: Result<Registry, RegisterError>) {
    match r
    case RegisterMethod(name, item) =>
      if name in table then Err(AlreadyRegistered(name)) else Ok(table[name := MethodHandler(item)])
    case RegisterSubscription(name, notif, unsubscribe, item) =>
      if name == unsubscribe then Err(SubscriptionNameConflict(name))
      else if name in table then Err(AlreadyRegistered(name))
      else if unsubscribe in table then Err(AlreadyRegistered(unsubscribe))
      else Ok(table[unsubscribe := UnsubscribeHandler(item)][name := SubscribeHandler(item, notif)])
    case RegisterAlias(name, existing) =>
      if name in table then Err(AlreadyRegistered(name))
      else if existing !in table then Err(MethodNotFound(existing))
      else Ok(table[name := table[existing]])
  }

  class Methods {
    var callbacks: Registry

    constructor ()
      ensures callbacks == map[]
    {
      callbacks := map[];
    }

    method VerifyMethodName(name: string) returns (r: Result<(), RegisterError>)
      ensures r == if name in callbacks then Err(AlreadyRegistered(name)) else Ok(())
    {
      r := if name in callbacks then Err(AlreadyRegistered(name)) else Ok(());
    }

    method VerifyAndInsert(name: string, callback: Handler) returns (r: Result<(), RegisterError>)
      modifies this
      ensures r == if name in old(callbacks) then Err(AlreadyRegistered(name)) else Ok(())
      ensures callbacks == if r.Ok? then old(callbacks)[name := callback] else old(callbacks)
    {
      if name in callbacks {
        return Err(AlreadyRegistered(name));
      }
      callbacks := callbacks[name := callback];
      return Ok(());
    }

    /** All of `other` is added, or, if any of its names is taken, nothing. */
    method Merge(other: Registry) returns (r: Result<(), RegisterError>)
      modifies this
      ensures r.Ok? <==> old(callbacks).Keys !! other.Keys
      ensures r.Ok? ==> callbacks == old(callbacks) + other
      ensures r.Err? ==> callbacks == old(callbacks) && exists name ::
              name in other && name in callbacks && r.error == AlreadyRegistered(name)
    {
      var unseen := other.Keys;
      while unseen != {}
        invariant unseen <= other.Keys && callbacks == old(callbacks)
        invariant old(callbacks).Keys !! (other.Keys - unseen)
        decreases |unseen|
      {
        var name :| name in unseen;
        var ok := VerifyMethodName(name);
        if ok.Err? { return ok; }
        unseen := unseen - {name};
      }
      Drain(other);
      return Ok(());
    }

    /** Moving all of `other` in. */
    method Drain(other: Registry)
      modifies this
      ensures callbacks == old(callbacks) + other
    {
      var unseen := other.Keys;
      while unseen != {}
        invariant unseen <= other.Keys
        invariant callbacks.Keys == old(callbacks).Keys + (other.Keys - unseen)
        invariant forall name ::
                  name in callbacks
                  ==> callbacks[name] == if name in other && name !in unseen then other[name]
                      else old(callbacks)[name]
        decreases |unseen|
      {
        var name :| name in unseen;
        callbacks := callbacks[name := other[name]];
        unseen := unseen - {name};
      }
    }

    method RegisterSubscription(name: string, notif: string, unsubscribe: string, item: nat)
      returns (r: Result<(), RegisterError>)
      modifies this
      ensures match Apply(old(callbacks), Registration.RegisterSubscription(name, notif, unsubscribe, item))
              case Ok(table) => r == Ok(()) && callbacks == table
              case Err(e) => r == Err(e) && callbacks == old(callbacks)
    {
      if name == unsubscribe { return Err(SubscriptionNameConflict(name)); }
      r := VerifyMethodName(name);
      if r.Err? { return; }
      r := VerifyMethodName(unsubscribe);
      if r.Err? { return; }
      callbacks := callbacks[unsubscribe := UnsubscribeHandler(item)];
      r := VerifyAndInsert(name, SubscribeHandler(item, notif));
    }

    method RegisterAlias(alias: string, existing: string) returns (r: Result<(), RegisterError>)
      modifies this
      ensures match Apply(old(callbacks), Registration.RegisterAlias(alias, existing))
              case Ok(table) => r == Ok(()) && callbacks == table
              case Err(e) => r == Err(e) && callbacks == old(callbacks)
    {
      r := VerifyMethodName(alias);
      if r.Err? { return; }
      if existing !in callbacks { return Err(MethodNotFound(existing)); }
      callbacks := callbacks[alias := callbacks[existing]];
    }
  }

  // ---------------------------------------------------------------- runs of registrations

  /** The table after all registrations, if none of them fails. */
  function Registered(rs: seq<Registration>): (table: Option<Registry>) {
    if rs == [] then Some(map[])
    else
      match Registered(rs[..|rs| - 1])
      case None => None
      case Some(table) => (
        match Apply(table, rs[|rs| - 1])
        case Ok(next) => Some(next)
        case Err(_) => None)
  }

  /** The names a registration takes. */
  function NamesOf(r: Registration): (names: seq<string>) {
    match r
    case RegisterMethod(name, _) => [name]
    case RegisterSubscription(name, _, unsubscribe, _) => [name, unsubscribe]
    case RegisterAlias(name, _) => [name]
  }

  function AllNames(rs: seq<Registration>): (names: seq<string>) {
    if rs == [] then [] else AllNames(rs[..|rs| - 1]) + NamesOf(rs[|rs| - 1])
  }

  predicate Distinct(names: seq<string>) {
    forall i, j :: 0 <= i < j < |names| ==> names[i] != names[j]
  }

  /** Every alias is of a name taken before it. */
  ghost predicate AliasesResolve(rs: seq<Registration>) {
    forall i :: 0 <= i < |rs| && rs[i].RegisterAlias? ==> rs[i].existing in AllNames(rs[..i])
  }

  /** The table answers for a registration as it should. */
  predicate Serves(table: Registry, r: Registration) {
    match r
    case RegisterMethod(name, item) => name in table && table[name] == MethodHandler(item)
    case RegisterSubscription(name, notif, unsubscribe, item) =>
      && name in table && table[name] == SubscribeHandler(item, notif)
      && unsubscribe in table && table[unsubscribe] == UnsubscribeHandler(item)
    case RegisterAlias(name, existing) => name in table && existing in table && table[name] == table[existing]
  }

  predicate Apart(a: seq<string>, b: seq<string>) {
    forall i, j :: 0 <= i < |a| && 0 <= j < |b| ==> a[i] != b[j]
  }

  ghost predicate HasNames(table: Registry, names: seq<string>) {
    forall name :: name in table <==> name in names
  }

  ghost predicate Extends(table: Registry, more: Registry) {
    forall name :: name in table ==> name in more && more[name] == table[name]
  }

  ghost predicate ServesAll(table: Registry, rs: seq<Registration>) {
    forall i :: 0 <= i < |rs| ==> Serves(table, rs[i])
  }

  lemma DistinctConcat(a: seq<string>, b: seq<string>)
    ensures Distinct(a + b) <==> Distinct(a) && Distinct(b) && Apart(a, b)
  {
    var c := a + b;
    if Distinct(c) {
      forall i, j | 0 <= i < j < |b| ensures b[i] != b[j] { assert c[|a| + i] != c[|a| + j]; }
      forall i, j | 0 <= i < j < |a| ensures a[i] != a[j] { assert c[i] != c[j]; }
      forall i, j | 0 <= i < |a| && 0 <= j < |b| ensures a[i] != b[j] { assert c[i] != c[|a| + j]; }
    }
  }

  /** One more registration on a table with the given names. */
  lemma ApplyExactly(table: Registry, names: seq<string>, r: Registration)
    requires HasNames(table, names) && (r.RegisterAlias? ==> r.existing in names)
    ensures Apply(table, r).Ok? <==> Distinct(NamesOf(r)) && Apart(names, NamesOf(r))
    ensures Apply(table, r).Ok? ==> HasNames(Apply(table, r).value, names + NamesOf(r))
    ensures Apply(table, r).Ok? ==> Serves(Apply(table, r).value, r) && Extends(table, Apply(table, r).value)
  {
    assert NamesOf(r)[0] == r.name;
    if r.RegisterSubscription? {
      assert NamesOf(r)[1] == r.unsubscribe;
    }
  }

  lemma ServesStill(table: Registry, more: Registry, rs: seq<Registration>)
    requires ServesAll(table, rs) && Extends(table, more)
    ensures ServesAll(more, rs)
  {
    forall i | 0 <= i < |rs|
      ensures Serves(more, rs[i])
    {
      assert Serves(table, rs[i]);
    }
  }

  lemma AliasesOfPrefix(rs: seq<Registration>, n: nat)
    requires AliasesResolve(rs) && n <= |rs|
    ensures AliasesResolve(rs[..n])
  {
    forall i | 0 <= i < n && rs[..n][i].RegisterAlias?
      ensures rs[..n][i].existing in AllNames(rs[..n][..i])
    {
      assert rs[..n][..i] == rs[..i];
    }
  }

  /**
   * Registrations whose aliases are of earlier names all succeed exactly if no two take the same name; the
   * table then has just those names and serves every registration.
   */
  lemma {:induction false} RegisteredExactly(rs: seq<Registration>)
    requires AliasesResolve(rs)
    ensures Registered(rs).Some? <==> Distinct(AllNames(rs))
    ensures Registered(rs).Some? ==> HasNames(Registered(rs).value, AllNames(rs)) && ServesAll(Registered(rs).value, rs)
  {
    if rs != [] {
      var n := |rs| - 1;
      AliasesOfPrefix(rs, n);
      RegisteredExactly(rs[..n]);
      LastRegistration(rs);
    }
  }

  lemma LastRegistration(rs: seq<Registration>)
    requires rs != [] && AliasesResolve(rs)
    requires var first := rs[..|rs| - 1];
             && (Registered(first).Some? <==> Distinct(AllNames(first)))
             && (Registered(first).Some?
                 ==> HasNames(Registered(first).value, AllNames(first)) && ServesAll(Registered(first).value, first))
    ensures Registered(rs).Some? <==> Distinct(AllNames(rs))
    ensures Registered(rs).Some? ==> HasNames(Registered(rs).value, AllNames(rs)) && ServesAll(Registered(rs).value, rs)
  {
    hide *;
    var first, last := rs[..|rs| - 1], rs[|rs| - 1];
    LastFacts(rs);
    DistinctConcat(AllNames(first), NamesOf(last));
    if Registered(first).Some? {
      var table := Registered(first).value;
      ApplyExactly(table, AllNames(first), last);
      if Apply(table, last).Ok? {
        ServesStill(table, Apply(table, last).value, first);
        ServesOneMore(Apply(table, last).value, rs);
      }
    }
  }

  lemma ServesOneMore(table: Registry, rs: seq<Registration>)
    requires rs != [] && ServesAll(table, rs[..|rs| - 1]) && Serves(table, rs[|rs| - 1])
    ensures ServesAll(table, rs)
  {
    hide Serves;
    forall i | 0 <= i < |rs|
      ensures Serves(table, rs[i])
    {
      if i < |rs| - 1 {
        assert rs[..|rs| - 1][i] == rs[i];
      }
    }
  }

  lemma LastFacts(rs: seq<Registration>)
    requires rs != [] && AliasesResolve(rs)
    ensures AllNames(rs) == AllNames(rs[..|rs| - 1]) + NamesOf(rs[|rs| - 1])
    ensures rs[|rs| - 1].RegisterAlias? ==> rs[|rs| - 1].existing in AllNames(rs[..|rs| - 1])
    ensures Registered(rs) == match Registered(rs[..|rs| - 1])
                              case None => None
                              case Some(table) => if Apply(table, rs[|rs| - 1]).Ok? then
                                                  Some(Apply(table, rs[|rs| - 1]).value) else None
  {
    hide Apply, NamesOf;
  }
}
