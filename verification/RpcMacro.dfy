/**
 * The name check of the `rpc` macro against the registry its generated code runs on: an interface the macro
 * accepts never fails to register.
 */
module RpcMacro {
  import opened Wrappers
  import opened MethodRegistry

  datatype RpcMethod = RpcMethod(name: string, aliases: seq<string>)

  datatype RpcSubscription = RpcSubscription(
    name: string,
    notifOverride: Option<string>,
    unsubscribe: string,
    aliases: seq<string>,
    unsubscribeAliases: seq<string>)

  datatype Api = Api(
    namespace: Option<string>,
    separator: Option<string>,
    methods: seq<RpcMethod>,
    subscriptions: seq<RpcSubscription>)

  /** Names are put under the namespace; aliases are not. */
  function RpcIdentifier(api: Api, name: string): (id: string) {
    match api.namespace
    case None => name
    case Some(ns) => ns + (if api.separator.Some? then api.separator.value else "_") + name
  }

  // ---------------------------------------------------------------- the name check

  /** The names that occurred before. */
  function Repeats(names: seq<string>): (r: seq<string>) {
    if names == [] then []
    else
      var n := |names| - 1;
      Repeats(names[..n]) + if names[n] in names[..n] then [names[n]] else []
  }

  lemma {:induction false} NoRepeats(names: seq<string>)
    ensures Repeats(names) == [] <==> Distinct(names)
  {
    if names != [] {
      var n := |names| - 1;
      NoRepeats(names[..n]);
      DistinctConcat(names[..n], [names[n]]);
      assert names[..n] + [names[n]] == names;
      if names[n] !in names[..n] {
        assert Apart(names[..n], [names[n]]);
      } else {
        var i :| 0 <= i < n && names[..n][i] == names[n];
        assert names[i] == names[n];
      }
    }
  }

  class NameChecker {
    var registered: set<string>
    var errors: seq<string>
    ghost var seen: seq<string>

    ghost predicate Valid()
      reads this
    {
      && (forall name :: name in registered <==> name in seen)
      && errors == Repeats(seen)
    }

    constructor ()
      ensures Valid() && seen == []
    {
      registered, errors, seen := {}, [], [];
    }

    method CheckName(name: string)
      requires Valid()
      modifies this
      ensures Valid() && seen == old(seen) + [name]
    {
      if name in registered {
        errors := errors + [name];
      } else {
        registered := registered + {name};
      }
      assert (seen + [name])[..|seen|] == seen;
      seen := seen + [name];
    }
  }

  // ---------------------------------------------------------------- what is rendered

  /** A rendered registration and the overriding notification name checked with it. */
  datatype Rendered = Rendered(registration: Registration, notif: Option<string>)

  function Registrations(items: seq<Rendered>): (rs: seq<Registration>) {
    if items == [] then [] else Registrations(items[..|items| - 1]) + [items[|items| - 1].registration]
  }

  /** The names checked while the items are rendered. */
  function Checked(items: seq<Rendered>): (names: seq<string>) {
    if items == [] then [] else Checked(items[..|items| - 1]) + ChecksOf(items[|items| - 1])
  }

  function ChecksOf(item: Rendered): (names: seq<string>) {
    NamesOf(item.registration) + if item.notif.Some? then [item.notif.value] else []
  }

  function MethodItem(api: Api, i: nat): (item: Rendered)
    requires i < |api.methods|
  {
    Rendered(RegisterMethod(RpcIdentifier(api, api.methods[i].name), i), None)
  }

  /** Without an override, notifications go out under the name to subscribe with. */
  function SubscriptionItem(api: Api, i: nat): (item: Rendered)
    requires i < |api.subscriptions|
  {
    var sub := api.subscriptions[i];
    var name := RpcIdentifier(api, sub.name);
    var notif := if sub.notifOverride.Some? then Some(RpcIdentifier(api, sub.notifOverride.value)) else None;
    var method' := if notif.Some? then notif.value else name;
    Rendered(RegisterSubscription(name, method', RpcIdentifier(api, sub.unsubscribe), i), notif)
  }

  function MethodItems(api: Api, k: nat): (items: seq<Rendered>)
    requires k <= |api.methods|
  {
    if k == 0 then [] else MethodItems(api, k - 1) + [MethodItem(api, k - 1)]
  }

  function SubscriptionItems(api: Api, k: nat): (items: seq<Rendered>)
    requires k <= |api.subscriptions|
  {
    if k == 0 then [] else SubscriptionItems(api, k - 1) + [SubscriptionItem(api, k - 1)]
  }

  function AliasItems(aliases: seq<string>, k: nat, existing: string): (items: seq<Rendered>)
    requires k <= |aliases|
  {
    if k == 0 then []
      else AliasItems(aliases, k - 1, existing) + [Rendered(RegisterAlias(aliases[k - 1], existing), None)]
  }

  function MethodAliasItems(api: Api, k: nat): (items: seq<Rendered>)
    requires k <= |api.methods|
  {
    if k == 0 then []
    else
      var m := api.methods[k - 1];
      MethodAliasItems(api, k - 1) + AliasItems(m.aliases, |m.aliases|, RpcIdentifier(api, m.name))
  }

  function SubscriptionAliasItems(api: Api, k: nat): (items: seq<Rendered>)
    requires k <= |api.subscriptions|
  {
    if k == 0 then []
    else
      var sub := api.subscriptions[k - 1];
      SubscriptionAliasItems(api, k - 1)
      + AliasItems(sub.aliases, |sub.aliases|, RpcIdentifier(api, sub.name))
      + AliasItems(sub.unsubscribeAliases, |sub.unsubscribeAliases|, RpcIdentifier(api, sub.unsubscribe))
  }

  function NamedItems(api: Api): (items: seq<Rendered>) {
    MethodItems(api, |api.methods|) + SubscriptionItems(api, |api.subscriptions|)
  }

  function AliasedItems(api: Api): (items: seq<Rendered>) {
    MethodAliasItems(api, |api.methods|) + SubscriptionAliasItems(api, |api.subscriptions|)
  }

  /** All that is rendered, in order. */
  function Items(api: Api): (items: seq<Rendered>) {
    NamedItems(api) + AliasedItems(api)
  }

  lemma ItemsGrow(items: seq<Rendered>, item: Rendered)
    ensures Registrations(items + [item]) == Registrations(items) + [item.registration]
    ensures Checked(items + [item]) == Checked(items) + ChecksOf(item)
  {
    assert (items + [item])[..|items|] == items;
  }

  // ---------------------------------------------------------------- rendering

  /** `rendered` is what the items rendered so far make, and the checker has seen their names. */
  ghost predicate Tracks(checker: NameChecker, rendered: seq<Registration>, items: seq<Rendered>)
    reads checker
  {
    checker.Valid() && checker.seen == Checked(items) && rendered == Registrations(items)
  }

  /** Rendering one item: its names are checked and its registration comes next. */
  method RenderOne(checker: NameChecker, rendered: seq<Registration>, r: Registration, notif: Option<string>,
                   ghost items: seq<Rendered>)
    returns (out: seq<Registration>)
    requires Tracks(checker, rendered, items)
    modifies checker
    ensures Tracks(checker, out, items + [Rendered(r, notif)])
  {
    hide Checked, Registrations, NameChecker.Valid, Repeats;
    ItemsGrow(items, Rendered(r, notif));
    ghost var before := checker.seen;
    checker.CheckName(r.name);
    if r.RegisterSubscription? {
      checker.CheckName(r.unsubscribe);
    }
    assert checker.seen == before + NamesOf(r);
    if notif.Some? {
      checker.CheckName(notif.value);
    }
    assert checker.seen == before + ChecksOf(Rendered(r, notif));
    out := rendered + [r];
  }

  method RenderAliases(checker: NameChecker, rendered: seq<Registration>, aliases: seq<string>, existing: string,
                       ghost items: seq<Rendered>)
    returns (out: seq<Registration>)
    requires Tracks(checker, rendered, items)
    modifies checker
    ensures Tracks(checker, out, items + AliasItems(aliases, |aliases|, existing))
  {
    hide Tracks;
    out := rendered;
    assert items + AliasItems(aliases, 0, existing) == items;
    for i := 0 to |aliases|
      invariant Tracks(checker, out, items + AliasItems(aliases, i, existing))
    {
      out := RenderOne(checker, out, RegisterAlias(aliases[i], existing), None,
        items + AliasItems(aliases, i, existing));
      assert items + AliasItems(aliases, i + 1, existing)
          == items + AliasItems(aliases, i, existing) + [Rendered(RegisterAlias(aliases[i], existing), None)];
    }
  }

  method RenderMethods(checker: NameChecker, api: Api) returns (out: seq<Registration>)
    requires Tracks(checker, [], [])
    modifies checker
    ensures Tracks(checker, out, MethodItems(api, |api.methods|))
  {
    hide Tracks;
    out := [];
    for i := 0 to |api.methods|
      invariant Tracks(checker, out, MethodItems(api, i))
    {
      out := RenderOne(checker, out, RegisterMethod(RpcIdentifier(api, api.methods[i].name), i), None,
        MethodItems(api, i));
    }
  }

  method RenderSubscriptions(checker: NameChecker, rendered: seq<Registration>, api: Api, ghost items: seq<Rendered>)
    returns (out: seq<Registration>)
    requires Tracks(checker, rendered, items)
    modifies checker
    ensures Tracks(checker, out, items + SubscriptionItems(api, |api.subscriptions|))
  {
    assert items + SubscriptionItems(api, 0) == items;
    hide Tracks, SubscriptionItems, RpcIdentifier;
    out := rendered;
    for i := 0 to |api.subscriptions|
      invariant Tracks(checker, out, items + SubscriptionItems(api, i))
    {
      var sub := api.subscriptions[i];
      var name, unsubscribe := RpcIdentifier(api, sub.name), RpcIdentifier(api, sub.unsubscribe);
      var override := if sub.notifOverride.Some? then Some(RpcIdentifier(api, sub.notifOverride.value)) else None;
      var notif := if override.Some? then override.value else name;
      out := RenderOne(checker, out, RegisterSubscription(name, notif, unsubscribe, i), override,
        items + SubscriptionItems(api, i));
      NextSubscription(api, i, items);
    }
  }

  lemma NextSubscription(api: Api, i: nat, items: seq<Rendered>)
    requires i < |api.subscriptions|
    ensures SubscriptionItems(api, i + 1) == SubscriptionItems(api, i) + [SubscriptionItem(api, i)]
    ensures items + SubscriptionItems(api, i + 1) == items + SubscriptionItems(api, i) + [SubscriptionItem(api, i)]
  {
    hide SubscriptionItem;
  }

  method RenderMethodAliases(checker: NameChecker, rendered: seq<Registration>, api: Api, ghost items: seq<Rendered>)
    returns (out: seq<Registration>)
    requires Tracks(checker, rendered, items)
    modifies checker
    ensures Tracks(checker, out, items + MethodAliasItems(api, |api.methods|))
  {
    hide Tracks, AliasItems;
    out := rendered;
    assert items + MethodAliasItems(api, 0) == items;
    for i := 0 to |api.methods|
      invariant Tracks(checker, out, items + MethodAliasItems(api, i))
    {
      var m := api.methods[i];
      out := RenderAliases(checker, out, m.aliases, RpcIdentifier(api, m.name), items + MethodAliasItems(api, i));
      assert items + MethodAliasItems(api, i + 1)
          == items + MethodAliasItems(api, i) + AliasItems(m.aliases, |m.aliases|, RpcIdentifier(api, m.name));
    }
  }

  method RenderSubscriptionAliases(checker: NameChecker, rendered: seq<Registration>, api: Api,
                                   ghost items: seq<Rendered>)
    returns (out: seq<Registration>)
    requires Tracks(checker, rendered, items)
    modifies checker
    ensures Tracks(checker, out, items + SubscriptionAliasItems(api, |api.subscriptions|))
  {
    hide Tracks, AliasItems;
    out := rendered;
    assert items + SubscriptionAliasItems(api, 0) == items;
    for i := 0 to |api.subscriptions|
      invariant Tracks(checker, out, items + SubscriptionAliasItems(api, i))
    {
      var sub := api.subscriptions[i];
      var name, unsubscribe := RpcIdentifier(api, sub.name), RpcIdentifier(api, sub.unsubscribe);
      ghost var before := items + SubscriptionAliasItems(api, i);
      ghost var first := AliasItems(sub.aliases, |sub.aliases|, name);
      ghost var second := AliasItems(sub.unsubscribeAliases, |sub.unsubscribeAliases|, unsubscribe);
      out := RenderAliases(checker, out, sub.aliases, name, before);
      out := RenderAliases(checker, out, sub.unsubscribeAliases, unsubscribe, before + first);
      assert items + SubscriptionAliasItems(api, i + 1) == before + first + second;
    }
  }

  /** The registrations in order, and as compile errors the names that were defined before. */
  method RenderIntoRpc(api: Api) returns (rendered: seq<Registration>, errors: seq<string>)
    ensures rendered == Registrations(Items(api)) && errors == Repeats(Checked(Items(api)))
  {
    var checker := new NameChecker();
    assert Tracks(checker, [], []);
    hide *;
    ghost var m := |api.methods|;
    ItemsAre(api);
    rendered := RenderMethods(checker, api);
    rendered := RenderSubscriptions(checker, rendered, api, MethodItems(api, m));
    rendered := RenderMethodAliases(checker, rendered, api, NamedItems(api));
    rendered := RenderSubscriptionAliases(checker, rendered, api, NamedItems(api) + MethodAliasItems(api, m));
    errors := checker.errors;
    TracksMeans(checker, rendered, Items(api));
  }

  lemma TracksMeans(checker: NameChecker, rendered: seq<Registration>, items: seq<Rendered>)
    requires Tracks(checker, rendered, items)
    ensures rendered == Registrations(items) && checker.errors == Repeats(Checked(items))
  {
  }

  lemma ItemsAre(api: Api)
    ensures Items(api)
            == NamedItems(api) + MethodAliasItems(api, |api.methods|) + SubscriptionAliasItems(api, |api.subscriptions|)
    ensures NamedItems(api) == MethodItems(api, |api.methods|) + SubscriptionItems(api, |api.subscriptions|)
  {
  }

  // ---------------------------------------------------------------- aliases are of registered names

  lemma {:induction false} RegistrationsConcat(a: seq<Rendered>, b: seq<Rendered>)
    ensures Registrations(a + b) == Registrations(a) + Registrations(b)
  {
    if b == [] {
      assert a + b == a;
    } else {
      assert (a + b)[..|a + b| - 1] == a + b[..|b| - 1];
      RegistrationsConcat(a, b[..|b| - 1]);
    }
  }

  lemma {:induction false} RegistrationAt(items: seq<Rendered>, i: nat)
    requires i < |items|
    ensures |Registrations(items)| == |items| && Registrations(items)[i] == items[i].registration
  {
    if i < |items| - 1 {
      RegistrationAt(items[..|items| - 1], i);
    } else if i > 0 {
      RegistrationAt(items[..|items| - 1], i - 1);
    }
  }

  lemma {:induction false} NamesOfPrefix(rs: seq<Registration>, k: nat, name: string)
    requires k <= |rs| && name in AllNames(rs[..k])
    ensures name in AllNames(rs)
  {
    if k < |rs| {
      assert rs[..|rs| - 1][..k] == rs[..k];
      NamesOfPrefix(rs[..|rs| - 1], k, name);
    } else {
      assert rs[..k] == rs;
    }
  }

  lemma {:induction false} NameTaken(rs: seq<Registration>, i: nat, name: string)
    requires i < |rs| && name in NamesOf(rs[i])
    ensures name in AllNames(rs)
  {
    assert rs[..i + 1][..i] == rs[..i];
    assert name in AllNames(rs[..i + 1]);
    NamesOfPrefix(rs, i + 1, name);
  }

  /** All items are aliases of names from `names`. */
  ghost predicate AliasesFrom(items: seq<Rendered>, names: seq<string>) {
    forall i :: 0 <= i < |items| ==> items[i].registration.RegisterAlias? && items[i].registration.existing in names
  }

  lemma {:induction false} AliasItemsFrom(aliases: seq<string>, k: nat, existing: string, names: seq<string>)
    requires k <= |aliases| && existing in names
    ensures AliasesFrom(AliasItems(aliases, k, existing), names)
  {
    if k > 0 {
      AliasItemsFrom(aliases, k - 1, existing, names);
    }
  }

  lemma AliasesFromBoth(a: seq<Rendered>, b: seq<Rendered>, names: seq<string>)
    requires AliasesFrom(a, names) && AliasesFrom(b, names)
    ensures AliasesFrom(a + b, names)
  {
  }

  ghost predicate MethodsIn(api: Api, names: seq<string>) {
    forall i :: 0 <= i < |api.methods| ==> RpcIdentifier(api, api.methods[i].name) in names
  }

  ghost predicate SubscriptionsIn(api: Api, names: seq<string>) {
    forall i :: 0 <= i < |api.subscriptions| ==>
      && RpcIdentifier(api, api.subscriptions[i].name) in names
      && RpcIdentifier(api, api.subscriptions[i].unsubscribe) in names
  }

  lemma NoAliasItems(api: Api, names: seq<string>)
    ensures AliasesFrom(MethodAliasItems(api, 0), names) && AliasesFrom(SubscriptionAliasItems(api, 0), names)
  {
  }

  lemma {:induction false} MethodAliasesFrom(api: Api, k: nat, names: seq<string>)
    requires k <= |api.methods| && MethodsIn(api, names)
    ensures AliasesFrom(MethodAliasItems(api, k), names)
  {
    hide *;
    if k == 0 {
      NoAliasItems(api, names);
    } else {
      MethodAliasesFrom(api, k - 1, names);
      LastMethodAliases(api, k, names);
      var m := api.methods[k - 1];
      AliasesFromBoth(MethodAliasItems(api, k - 1),
        AliasItems(m.aliases, |m.aliases|, RpcIdentifier(api, m.name)), names);
    }
  }

  lemma LastMethodAliases(api: Api, k: nat, names: seq<string>)
    requires 0 < k <= |api.methods| && MethodsIn(api, names)
    ensures var m := api.methods[k - 1];
            var items := AliasItems(m.aliases, |m.aliases|, RpcIdentifier(api, m.name));
            AliasesFrom(items, names) && MethodAliasItems(api, k) == MethodAliasItems(api, k - 1) + items
  {
    hide AliasItems, AliasesFrom, RpcIdentifier;
    var m := api.methods[k - 1];
    AliasItemsFrom(m.aliases, |m.aliases|, RpcIdentifier(api, m.name), names);
  }

  lemma {:induction false} SubscriptionAliasesFrom(api: Api, k: nat, names: seq<string>)
    requires k <= |api.subscriptions| && SubscriptionsIn(api, names)
    ensures AliasesFrom(SubscriptionAliasItems(api, k), names)
  {
    hide *;
    if k == 0 {
      NoAliasItems(api, names);
    } else {
      SubscriptionAliasesFrom(api, k - 1, names);
      LastSubscriptionAliases(api, k, names);
      var sub := api.subscriptions[k - 1];
      var before := SubscriptionAliasItems(api, k - 1);
      var first := AliasItems(sub.aliases, |sub.aliases|, RpcIdentifier(api, sub.name));
      AliasesFromBoth(before, first, names);
      AliasesFromBoth(before + first,
        AliasItems(sub.unsubscribeAliases, |sub.unsubscribeAliases|, RpcIdentifier(api, sub.unsubscribe)), names);
    }
  }

  lemma LastSubscriptionAliases(api: Api, k: nat, names: seq<string>)
    requires 0 < k <= |api.subscriptions| && SubscriptionsIn(api, names)
    ensures var sub := api.subscriptions[k - 1];
            var first := AliasItems(sub.aliases, |sub.aliases|, RpcIdentifier(api, sub.name));
            var unsubscribe := RpcIdentifier(api, sub.unsubscribe);
            var second := AliasItems(sub.unsubscribeAliases, |sub.unsubscribeAliases|, unsubscribe);
            && AliasesFrom(first, names) && AliasesFrom(second, names)
            && SubscriptionAliasItems(api, k) == SubscriptionAliasItems(api, k - 1) + first + second
  {
    hide AliasItems, AliasesFrom, RpcIdentifier;
    var sub := api.subscriptions[k - 1];
    AliasItemsFrom(sub.aliases, |sub.aliases|, RpcIdentifier(api, sub.name), names);
    AliasItemsFrom(sub.unsubscribeAliases, |sub.unsubscribeAliases|, RpcIdentifier(api, sub.unsubscribe), names);
  }

  lemma NoItems(api: Api)
    ensures MethodItems(api, 0) == [] && SubscriptionItems(api, 0) == []
  {
  }

  lemma NextMethodItem(api: Api, k: nat)
    requires k < |api.methods|
    ensures MethodItems(api, k + 1) == MethodItems(api, k) + [MethodItem(api, k)]
  {
    hide MethodItem;
  }

  lemma {:induction false} MethodItemAt(api: Api, k: nat, i: nat)
    requires i < k <= |api.methods|
    ensures |MethodItems(api, k)| == k && MethodItems(api, k)[i] == MethodItem(api, i)
  {
    hide *;
    NoItems(api);
    NextMethodItem(api, k - 1);
    if i < k - 1 {
      MethodItemAt(api, k - 1, i);
    } else if i > 0 {
      MethodItemAt(api, k - 1, i - 1);
    }
  }

  lemma {:induction false} SubscriptionItemAt(api: Api, k: nat, i: nat)
    requires i < k <= |api.subscriptions|
    ensures |SubscriptionItems(api, k)| == k && SubscriptionItems(api, k)[i] == SubscriptionItem(api, i)
  {
    hide *;
    NoItems(api);
    NextSubscription(api, k - 1, []);
    if i < k - 1 {
      SubscriptionItemAt(api, k - 1, i);
    } else if i > 0 {
      SubscriptionItemAt(api, k - 1, i - 1);
    }
  }

  /** Every method and subscription name is registered before the aliases. */
  lemma NamedAreTaken(api: Api)
    ensures MethodsIn(api, AllNames(Registrations(NamedItems(api))))
    ensures SubscriptionsIn(api, AllNames(Registrations(NamedItems(api))))
  {
    hide MethodItems, SubscriptionItems, AllNames, Registrations, RpcIdentifier;
    var rs := Registrations(NamedItems(api));
    forall i | 0 <= i < |api.methods|
      ensures RpcIdentifier(api, api.methods[i].name) in AllNames(rs)
    {
      MethodItemAt(api, |api.methods|, i);
      RegistrationAt(NamedItems(api), i);
      assert NamesOf(rs[i])[0] == RpcIdentifier(api, api.methods[i].name);
      NameTaken(rs, i, RpcIdentifier(api, api.methods[i].name));
    }
    forall i | 0 <= i < |api.subscriptions|
      ensures RpcIdentifier(api, api.subscriptions[i].name) in AllNames(rs)
      ensures RpcIdentifier(api, api.subscriptions[i].unsubscribe) in AllNames(rs)
    {
      var j := |MethodItems(api, |api.methods|)| + i;
      SubscriptionItemAt(api, |api.subscriptions|, i);
      RegistrationAt(NamedItems(api), j);
      assert NamesOf(rs[j])[0] == RpcIdentifier(api, api.subscriptions[i].name);
      assert NamesOf(rs[j])[1] == RpcIdentifier(api, api.subscriptions[i].unsubscribe);
      NameTaken(rs, j, RpcIdentifier(api, api.subscriptions[i].name));
      NameTaken(rs, j, RpcIdentifier(api, api.subscriptions[i].unsubscribe));
    }
  }

  ghost predicate NoAliases(rs: seq<Registration>) {
    forall i :: 0 <= i < |rs| ==> !rs[i].RegisterAlias?
  }

  lemma NamedHaveNoAliases(api: Api)
    ensures NoAliases(Registrations(NamedItems(api)))
  {
    hide MethodItems, SubscriptionItems, Registrations, RpcIdentifier;
    var items := NamedItems(api);
    var rs := Registrations(items);
    assert items == [] ==> rs == [] by { NothingRendered(items); }
    if items != [] {
      RegistrationAt(items, 0);
    }
    var m := |MethodItems(api, |api.methods|)|;
    assert m == |api.methods| by { CountItems(api); }
    assert |items| == m + |api.subscriptions| by { CountItems(api); }
    forall i | 0 <= i < |rs|
      ensures !rs[i].RegisterAlias?
    {
      RegistrationAt(items, i);
      if i < m {
        MethodItemAt(api, m, i);
      } else {
        SubscriptionItemAt(api, |api.subscriptions|, i - m);
      }
    }
  }

  lemma NothingRendered(items: seq<Rendered>)
    ensures items == [] ==> Registrations(items) == []
  {
  }

  lemma CountItems(api: Api)
    ensures |MethodItems(api, |api.methods|)| == |api.methods|
    ensures |SubscriptionItems(api, |api.subscriptions|)| == |api.subscriptions|
  {
    if |api.methods| > 0 {
      MethodItemAt(api, |api.methods|, 0);
    }
    if |api.subscriptions| > 0 {
      SubscriptionItemAt(api, |api.subscriptions|, 0);
    }
  }

  lemma AliasesComeAfter(base: seq<Registration>, aliases: seq<Rendered>)
    requires NoAliases(base) && AliasesFrom(aliases, AllNames(base))
    ensures AliasesResolve(base + Registrations(aliases))
  {
    hide AllNames, Registrations;
    var rs := base + Registrations(aliases);
    forall i | 0 <= i < |rs| && rs[i].RegisterAlias?
      ensures rs[i].existing in AllNames(rs[..i])
    {
      NothingRendered(aliases);
      if aliases != [] {
        RegistrationAt(aliases, 0);
        RegistrationAt(aliases, i - |base|);
        assert rs[..i][..|base|] == base;
        NamesOfPrefix(rs[..i], |base|, rs[i].existing);
      }
    }
  }

  lemma AliasesOfApiResolve(api: Api)
    ensures AliasesResolve(Registrations(Items(api)))
  {
    var base := Registrations(NamedItems(api));
    assert Items(api) == NamedItems(api) + AliasedItems(api);
    assert AliasedItems(api)
        == MethodAliasItems(api, |api.methods|) + SubscriptionAliasItems(api, |api.subscriptions|);
    hide *;
    NamedHaveNoAliases(api);
    NamedAreTaken(api);
    MethodAliasesFrom(api, |api.methods|, AllNames(base));
    SubscriptionAliasesFrom(api, |api.subscriptions|, AllNames(base));
    AliasesFromBoth(MethodAliasItems(api, |api.methods|), SubscriptionAliasItems(api, |api.subscriptions|),
      AllNames(base));
    AliasesComeAfter(base, AliasedItems(api));
    RegistrationsConcat(NamedItems(api), AliasedItems(api));
  }

  // ---------------------------------------------------------------- the name check is sound

  /** The overriding notification names. */
  function NotifNames(items: seq<Rendered>): (names: seq<string>) {
    if items == [] then [] else NotifNames(items[..|items| - 1]) + NotifOf(items[|items| - 1])
  }

  function NotifOf(item: Rendered): (names: seq<string>) {
    if item.notif.Some? then [item.notif.value] else []
  }

  lemma ApartConcat(a: seq<string>, b: seq<string>, c: seq<string>)
    ensures Apart(a + b, c) <==> Apart(a, c) && Apart(b, c)
    ensures Apart(c, a + b) <==> Apart(c, a) && Apart(c, b)
  {
    if Apart(a + b, c) {
      forall i, j | 0 <= i < |a| && 0 <= j < |c| ensures a[i] != c[j] { assert (a + b)[i] == a[i]; }
      forall i, j | 0 <= i < |b| && 0 <= j < |c| ensures b[i] != c[j] { assert (a + b)[|a| + i] == b[i]; }
    }
    if Apart(c, a + b) {
      forall i, j | 0 <= i < |c| && 0 <= j < |a| ensures c[i] != a[j] { assert (a + b)[j] == a[j]; }
      forall i, j | 0 <= i < |c| && 0 <= j < |b| ensures c[i] != b[j] { assert (a + b)[|a| + j] == b[j]; }
    }
  }

  lemma ApartBothWays(a: seq<string>, b: seq<string>)
    ensures Apart(a, b) <==> Apart(b, a)
  {
  }

  /** What the last item adds to the names. */
  lemma LastItemNames(items: seq<Rendered>)
    requires items != []
    ensures var item, before := items[|items| - 1], items[..|items| - 1];
            && Checked(items) == Checked(before) + (NamesOf(item.registration) + NotifOf(item))
            && AllNames(Registrations(items)) == AllNames(Registrations(before)) + NamesOf(item.registration)
            && NotifNames(items) == NotifNames(before) + NotifOf(item)
  {
    var rs := Registrations(items);
    assert rs[..|rs| - 1] == Registrations(items[..|items| - 1]);
  }

  /** The checked names are the registered ones and the overriding ones: apart from something exactly if both are. */
  lemma {:induction false} CheckedApart(items: seq<Rendered>, other: seq<string>)
    ensures Apart(Checked(items), other)
            <==> Apart(AllNames(Registrations(items)), other) && Apart(NotifNames(items), other)
  {
    if items != [] {
      var n := |items| - 1;
      var item := items[n];
      CheckedApart(items[..n], other);
      LastItemNames(items);
      ApartConcat(Checked(items[..n]), NamesOf(item.registration) + NotifOf(item), other);
      ApartConcat(NamesOf(item.registration), NotifOf(item), other);
      ApartConcat(AllNames(Registrations(items[..n])), NamesOf(item.registration), other);
      ApartConcat(NotifNames(items[..n]), NotifOf(item), other);
      hide *;
    }
  }

  ghost predicate NamesDistinct(names: seq<string>, notifs: seq<string>) {
    Distinct(names) && Distinct(notifs) && Apart(names, notifs)
  }

  /**
   * All checked names are distinct exactly if the registered ones are, the overriding ones are, and no name
   * is both.
   */
  lemma {:induction false} CheckedDistinct(items: seq<Rendered>)
    ensures Distinct(Checked(items)) <==> NamesDistinct(AllNames(Registrations(items)), NotifNames(items))
  {
    if items != [] {
      var n := |items| - 1;
      var item := items[n];
      CheckedDistinct(items[..n]);
      LastItemNames(items);
      CheckedApart(items[..n], NamesOf(item.registration));
      CheckedApart(items[..n], NotifOf(item));
      hide *;
      OneMoreDistinct(Checked(items[..n]), AllNames(Registrations(items[..n])), NotifNames(items[..n]),
                      NamesOf(item.registration), NotifOf(item));
    }
  }

  lemma OneMoreDistinct(all: seq<string>, names: seq<string>, notifs: seq<string>, a: seq<string>, b: seq<string>)
    requires Distinct(all) <==> NamesDistinct(names, notifs)
    requires Apart(all, a) <==> Apart(names, a) && Apart(notifs, a)
    requires Apart(all, b) <==> Apart(names, b) && Apart(notifs, b)
    ensures Distinct(all + (a + b)) <==> NamesDistinct(names + a, notifs + b)
  {
    DistinctConcat(all, a + b);
    DistinctConcat(a, b);
    DistinctConcat(names, a);
    DistinctConcat(notifs, b);
    ApartConcat(a, b, all);
    ApartConcat(names, a, notifs + b);
    ApartConcat(notifs, b, names);
    ApartConcat(notifs, b, a);
    ApartBothWays(notifs, a);
    hide Distinct, Apart;
  }

  /**
   * If the macro reports no name twice, every generated registration succeeds on an empty registry, which
   * then serves every method, subscription and alias of the interface.
   */
  lemma AcceptedNeverFails(api: Api)
    requires Repeats(Checked(Items(api))) == []
    ensures Registered(Registrations(Items(api))).Some?
    ensures ServesAll(Registered(Registrations(Items(api))).value, Registrations(Items(api)))
  {
    hide Items, Registrations, Checked, Registered, Repeats, NotifNames;
    NoRepeats(Checked(Items(api)));
    CheckedDistinct(Items(api));
    AliasesOfApiResolve(api);
    RegisteredExactly(Registrations(Items(api)));
  }

  /**
   * The macro accepts an interface exactly if it would register and, beyond that, its overriding notification
   * names differ from each other and from every registered name.
   */
  lemma AcceptedExactly(api: Api)
    ensures Repeats(Checked(Items(api))) == []
            <==> && Registered(Registrations(Items(api))).Some?
                 && Distinct(NotifNames(Items(api)))
                 && Apart(AllNames(Registrations(Items(api))), NotifNames(Items(api)))
  {
    hide Items, Registrations, Checked, Registered, Repeats, NotifNames, Distinct, Apart, AllNames;
    NoRepeats(Checked(Items(api)));
    CheckedDistinct(Items(api));
    SucceedsExactly(api);
  }

  /** Registration succeeds exactly if the registered names are distinct. */
  lemma SucceedsExactly(api: Api)
    ensures Registered(Registrations(Items(api))).Some? <==> Distinct(AllNames(Registrations(Items(api))))
  {
    hide *;
    AliasesOfApiResolve(api);
    RegisteredExactly(Registrations(Items(api)));
  }

  /** An interface that registers without failure and is refused all the same: a notification is named like a method. */
  const SHARED := Api(None, None, [RpcMethod("a", [])], [RpcSubscription("b", Some("a"), "c", [], [])])

  const SHARED_METHOD := Rendered(RegisterMethod("a", 0), None)
  const SHARED_SUBSCRIPTION := Rendered(RegisterSubscription("b", "a", "c", 0), Some("a"))

  lemma SharedItems()
    ensures Items(SHARED) == [SHARED_METHOD] + [SHARED_SUBSCRIPTION]
  {
    assert MethodItems(SHARED, 1) == [SHARED_METHOD] && SubscriptionItems(SHARED, 1) == [SHARED_SUBSCRIPTION];
    assert MethodAliasItems(SHARED, 1) == [] && SubscriptionAliasItems(SHARED, 1) == [];
  }

  lemma SharedNames()
    ensures Checked([SHARED_METHOD] + [SHARED_SUBSCRIPTION]) == ["a"] + (["b", "c"] + ["a"])
    ensures Registrations([SHARED_METHOD] + [SHARED_SUBSCRIPTION])
            == [SHARED_METHOD.registration] + [SHARED_SUBSCRIPTION.registration]
  {
    assert Checked([]) == [] && Registrations([]) == [];
    hide Checked, Registrations;
    ItemsGrow([], SHARED_METHOD);
    ItemsGrow([SHARED_METHOD], SHARED_SUBSCRIPTION);
    assert [] + [SHARED_METHOD] == [SHARED_METHOD];
  }

  lemma SharedTaken()
    ensures AllNames([SHARED_METHOD.registration] + [SHARED_SUBSCRIPTION.registration]) == ["a"] + ["b", "c"]
  {
    var rs := [SHARED_METHOD.registration] + [SHARED_SUBSCRIPTION.registration];
    assert rs[..1] == [SHARED_METHOD.registration] && rs[..1][..0] == [];
    assert AllNames(rs[..1]) == ["a"];
  }

  lemma CheckIsStricter()
    ensures Registered(Registrations(Items(SHARED))).Some? && Repeats(Checked(Items(SHARED))) != []
  {
    hide Items, Checked, Registrations, Registered, AllNames, Repeats;
    SharedItems();
    SharedNames();
    SharedTaken();
    var names := ["a"] + (["b", "c"] + ["a"]);
    assert names[0] == names[3];
    NoRepeats(names);
    SucceedsExactly(SHARED);
  }

  /** The generated code: it panics at the first registration that fails. */
  method IntoRpc(rs: seq<Registration>) returns (panicked: bool, table: Registry)
    ensures panicked <==> Registered(rs).None?
    ensures !panicked ==> Registered(rs) == Some(table)
  {
    var rpc := new Methods();
    assert rs[..0] == [];
    for i := 0 to |rs|
      invariant Registered(rs[..i]) == Some(rpc.callbacks) && fresh(rpc)
    {
      RegisteredNext(rs, i);
      var ok: Result<(), RegisterError>;
      match rs[i] {
        case RegisterMethod(name, item) => ok := rpc.VerifyAndInsert(name, MethodHandler(item));
        case RegisterSubscription(name, notif, unsubscribe, item) => ok := rpc.RegisterSubscription(name, notif,
                                                                     unsubscribe, item);
        case RegisterAlias(name, existing) => ok := rpc.RegisterAlias(name, existing);
      }
      if ok.Err? {
        FailureStays(rs, i + 1);
        return true, map[];
      }
    }
    assert rs[..|rs|] == rs;
    return false, rpc.callbacks;
  }

  lemma RegisteredNext(rs: seq<Registration>, i: nat)
    requires i < |rs| && Registered(rs[..i]).Some?
    ensures Registered(rs[..i + 1]) == match Apply(Registered(rs[..i]).value, rs[i]) case Ok(table) => Some(table)
            case Err(_) => None
  {
    assert rs[..i + 1][..i] == rs[..i];
  }

  lemma {:induction false} FailureStays(rs: seq<Registration>, i: nat)
    requires i <= |rs| && Registered(rs[..i]).None?
    ensures Registered(rs).None?
  {
    if i < |rs| {
      assert rs[..|rs| - 1][..i] == rs[..i];
      FailureStays(rs[..|rs| - 1], i);
    } else {
      assert rs[..i] == rs;
    }
  }

  /** From the interface to the running module: without a compile error the generated code does not panic. */
  method ExpandAndRun(api: Api) returns (errors: seq<string>, panicked: bool, table: Registry)
    ensures errors == [] ==> !panicked && ServesAll(table, Registrations(Items(api)))
    ensures panicked ==> errors != []
  {
    hide Items, Registrations, Checked, Repeats, Registered;
    var rendered;
    rendered, errors := RenderIntoRpc(api);
    panicked, table := IntoRpc(rendered);
    if errors == [] {
      AcceptedNeverFails(api);
    }
  }
}
