/** The group set-up management commands (api/home/accounts/management/commands/setup_groups.py).
    `setup_groups` runs, for every selected installed app, the app's own `setup_<label>_groups` command when one
    exists, and reports what it found, ran and saw fail. Each app command is built on
    `AbstractGroupSetupCommand`: for every configured group it grants the configured permissions that exist,
    counting those it added and those the group already had, and in reset mode first removes every permission
    the configuration does not name. */
module SetupGroups {
  import opened Common

  // ---------------------------------------------------------------------------------------------------
  // `setup_groups`: app selection and the run over the selected apps.

  /** The apps whose label is (`inside`) or is not (`!inside`) among `labels`, in their original order. */
  function FilterApps(apps: seq<string>, labels: set<string>, inside: bool): seq<string>
  {
    if apps == [] then []
    else FilterApps(apps[..|apps| - 1], labels, inside) + (if (apps[|apps| - 1] in labels) == inside then [apps[|apps| - 1]] else [])
  }

  /** The app selection of `handle`: only the `--apps` labels when some are given, then without the
      `--exclude` labels when some are given. */
  function SelectApps(installed: seq<string>, specific: seq<string>, excluded: seq<string>): seq<string>
  {
    var chosen := if specific != [] then FilterApps(installed, set a | a in specific, true) else installed;
    if excluded != [] then FilterApps(chosen, set a | a in excluded, false) else chosen
  }

  /** Filtering keeps exactly the apps on the requested side of `labels`. */
  lemma {:induction false} FilterAppsMembers(a: seq<string>, labels: set<string>, inside: bool)
    ensures forall x :: x in FilterApps(a, labels, inside) <==> x in a && (x in labels) == inside
  {
    if a != [] {
      FilterAppsMembers(a[..|a| - 1], labels, inside);
      assert a == a[..|a| - 1] + [a[|a| - 1]];
    }
  }

  /** Filtering keeps the apps' order: filtering a concatenation concatenates the filtered parts. */
  lemma {:induction false} FilterAppsKeepsOrder(a: seq<string>, b: seq<string>, labels: set<string>, inside: bool)
    ensures FilterApps(a + b, labels, inside) == FilterApps(a, labels, inside) + FilterApps(b, labels, inside)
  {
    if b == [] {
      assert a + b == a;
    } else {
      FilterAppsKeepsOrder(a, b[..|b| - 1], labels, inside);
      assert (a + b)[..|a + b| - 1] == a + b[..|b| - 1];
    }
  }

  /** An installed app is selected exactly when it is among the `--apps` labels (or none are given) and not
      among the `--exclude` labels. */
  lemma SelectAppsMembers(installed: seq<string>, specific: seq<string>, excluded: seq<string>, app: string)
    ensures app in SelectApps(installed, specific, excluded) <==>
      app in installed && (specific == [] || app in specific) && app !in excluded
  {
    var chosen := if specific != [] then FilterApps(installed, set a | a in specific, true) else installed;
    FilterAppsMembers(installed, set a | a in specific, true);
    FilterAppsMembers(chosen, set a | a in excluded, false);
  }

  /** The command looked up for an app label. */
  function CommandName(appLabel: string): string
  {
    "setup_" + appLabel + "_groups"
  }

  /** Different labels name different commands. */
  lemma CommandNameInjective(a: string, b: string)
    requires CommandName(a) == CommandName(b)
    ensures a == b
  {
    assert |a| == |b|;
    assert a == CommandName(a)[6..6 + |a|];
    assert b == CommandName(b)[6..6 + |b|];
  }

  /** The arguments given to `call_command`: the command name, and `--reset` in reset mode. */
  function CallArgs(name: string, reset: bool): seq<string>
  {
    [name] + (if reset then ["--reset"] else [])
  }

  /** The lists `handle` builds (each entry an app label with its command name) and the `call_command`
      calls it makes. A failure's message is not kept. */
  datatype Report = Report(found: seq<(string, string)>, notFound: seq<(string, string)>,
                           executed: seq<(string, string)>, failed: seq<(string, string)>,
                           calls: seq<seq<string>>)

  /** One iteration of the loop of `handle`. `available` is the set of command names Django knows and
      `failing` the set of commands whose run raises. */
  function Step(r: Report, appLabel: string, available: set<string>, failing: set<string>, dryRun: bool, reset: bool): Report
  {
    var name := CommandName(appLabel);
    if name !in available then r.(notFound := r.notFound + [(appLabel, name)])
    else if dryRun then r.(found := r.found + [(appLabel, name)])
    else if name in failing then
      r.(found := r.found + [(appLabel, name)], failed := r.failed + [(appLabel, name)], calls := r.calls + [CallArgs(name, reset)])
    else
      r.(found := r.found + [(appLabel, name)], executed := r.executed + [(appLabel, name)], calls := r.calls + [CallArgs(name, reset)])
  }

  /** The report after the loop has visited `apps`. */
  function Run(apps: seq<string>, available: set<string>, failing: set<string>, dryRun: bool, reset: bool): Report
  {
    if apps == [] then Report([], [], [], [], [])
    else Step(Run(apps[..|apps| - 1], available, failing, dryRun, reset), apps[|apps| - 1], available, failing, dryRun, reset)
  }

  /** Every app is either found or not found; a dry run calls nothing; otherwise every found command is
      called, with `--reset` exactly in reset mode, even after an earlier one failed, and is counted either as
      executed or as failed. */
  lemma RunRules(apps: seq<string>, available: set<string>, failing: set<string>, dryRun: bool, reset: bool)
    ensures var r := Run(apps, available, failing, dryRun, reset);
      |r.found| + |r.notFound| == |apps|
      && (dryRun ==> r.executed == [] && r.failed == [] && r.calls == [])
      && (!dryRun ==> |r.executed| + |r.failed| == |r.found| && |r.calls| == |r.found|
                      && forall i :: 0 <= i < |r.calls| ==> r.calls[i] == CallArgs(r.found[i].1, reset))
      && (forall e :: e in r.found ==> e.0 in apps && e.1 == CommandName(e.0) && e.1 in available)
      && (forall e :: e in r.notFound ==> e.0 in apps && e.1 == CommandName(e.0) && e.1 !in available)
      && (forall e :: e in r.failed ==> e in r.found && e.1 in failing)
      && (forall e :: e in r.executed ==> e in r.found && e.1 !in failing)
  {
    RunCounts(apps, available, failing, dryRun, reset);
    RunEntries(apps, available, failing, dryRun, reset);
  }

  lemma {:induction false} RunCounts(apps: seq<string>, available: set<string>, failing: set<string>, dryRun: bool, reset: bool)
    ensures var r := Run(apps, available, failing, dryRun, reset);
      |r.found| + |r.notFound| == |apps|
      && (dryRun ==> r.executed == [] && r.failed == [] && r.calls == [])
      && (!dryRun ==> |r.executed| + |r.failed| == |r.found| && |r.calls| == |r.found|
                      && forall i :: 0 <= i < |r.calls| ==> r.calls[i] == CallArgs(r.found[i].1, reset))
  {
    if apps != [] {
      RunCounts(apps[..|apps| - 1], available, failing, dryRun, reset);
    }
  }

  lemma RunEntries(apps: seq<string>, available: set<string>, failing: set<string>, dryRun: bool, reset: bool)
    ensures var r := Run(apps, available, failing, dryRun, reset);
      (forall e :: e in r.found ==> e.0 in apps && e.1 == CommandName(e.0) && e.1 in available)
      && (forall e :: e in r.notFound ==> e.0 in apps && e.1 == CommandName(e.0) && e.1 !in available)
      && (forall e :: e in r.failed ==> e in r.found && e.1 in failing)
      && (forall e :: e in r.executed ==> e in r.found && e.1 !in failing)
  {
    RunLookups(apps, available, failing, dryRun, reset);
    RunOutcomes(apps, available, failing, dryRun, reset);
  }

  lemma {:induction false} RunLookups(apps: seq<string>, available: set<string>, failing: set<string>, dryRun: bool, reset: bool)
    ensures var r := Run(apps, available, failing, dryRun, reset);
      (forall e :: e in r.found ==> e.0 in apps && e.1 == CommandName(e.0) && e.1 in available)
      && (forall e :: e in r.notFound ==> e.0 in apps && e.1 == CommandName(e.0) && e.1 !in available)
  {
    if apps != [] {
      var init := apps[..|apps| - 1];
      RunLookups(init, available, failing, dryRun, reset);
      assert forall x :: x in init ==> x in apps;
    }
  }

  lemma {:induction false} RunOutcomes(apps: seq<string>, available: set<string>, failing: set<string>, dryRun: bool, reset: bool)
    ensures var r := Run(apps, available, failing, dryRun, reset);
      (forall e :: e in r.failed ==> e in r.found && e.1 in failing)
      && (forall e :: e in r.executed ==> e in r.found && e.1 !in failing)
  {
    if apps != [] {
      RunOutcomes(apps[..|apps| - 1], available, failing, dryRun, reset);
    }
  }

  /** `--reset` is passed to a sub-command exactly in reset mode. */
  lemma CallArgsRules(name: string, reset: bool)
    ensures CallArgs(name, reset)[0] == name
    ensures "--reset" in CallArgs(name, reset) <==> reset || name == "--reset"
  {
  }

  /** `Command.handle`: the selection, then the loop over the selected apps. */
  method SetupAllApps(installed: seq<string>, specific: seq<string>, excluded: seq<string>,
                      available: set<string>, failing: set<string>, dryRun: bool, reset: bool)
    returns (report: Report)
    ensures report == Run(SelectApps(installed, specific, excluded), available, failing, dryRun, reset)
  {
    var apps := SelectApps(installed, specific, excluded);
    var found, notFound, executed, failed, calls := [], [], [], [], [];
    for i := 0 to |apps|
      invariant Report(found, notFound, executed, failed, calls) == Run(apps[..i], available, failing, dryRun, reset)
    {
      assert apps[..i + 1][..i] == apps[..i];
      var appLabel := apps[i];
      var name := "setup_" + appLabel + "_groups";
      assert name == CommandName(appLabel);
      if name in available {
        found := found + [(appLabel, name)];
        if !dryRun {
          var args := [name];
          if reset {
            args := args + ["--reset"];
          }
          assert args == CallArgs(name, reset);
          calls := calls + [args];
          if name in failing {
            failed := failed + [(appLabel, name)];
          } else {
            executed := executed + [(appLabel, name)];
          }
        }
      } else {
        notFound := notFound + [(appLabel, name)];
      }
    }
    assert apps[..|apps|] == apps;
    report := Report(found, notFound, executed, failed, calls);
  }

  // ---------------------------------------------------------------------------------------------------
  // `AbstractGroupSetupCommand`: granting and synchronising a group's permissions.

  type PermId = nat

  /** The permissions that exist, by model name and permission codename (`change_order` for the `change`
      permission of the `order` model). */
  type Catalogue = map<(string, string), PermId>

  /** The permission codename built for a configured codename of a model. */
  function PermCodename(codename: string, modelName: string): string
  {
    codename + "_" + modelName
  }

  /** One `(model, codenames)` entry of a group's `models_permissions`. */
  datatype ModelPermissions = ModelPermissions(modelName: string, codenames: seq<string>)

  /** One entry of `groups_config`. */
  datatype GroupConfig = GroupConfig(id: nat, name: string, models: seq<ModelPermissions>, description: string)

  /** The key `get_or_create(id=..., name=...)` looks a group up by. */
  function GroupKey(c: GroupConfig): (nat, string)
  {
    (c.id, c.name)
  }

  predicate Exists(cat: Catalogue, modelName: string, codename: string)
  {
    (modelName, PermCodename(codename, modelName)) in cat
  }

  /** The existing permissions named by a model's configured codenames. */
  function ConfiguredIds(cat: Catalogue, modelName: string, codenames: seq<string>): set<PermId>
  {
    if codenames == [] then {}
    else
      var c := codenames[|codenames| - 1];
      ConfiguredIds(cat, modelName, codenames[..|codenames| - 1])
      + (if Exists(cat, modelName, c) then {cat[(modelName, PermCodename(c, modelName))]} else {})
  }

  /** A permission is configured exactly when some configured codename names it and it exists. */
  lemma {:induction false} ConfiguredIdsMembers(cat: Catalogue, modelName: string, codenames: seq<string>, p: PermId)
    ensures p in ConfiguredIds(cat, modelName, codenames) <==>
      exists c :: c in codenames && Exists(cat, modelName, c) && cat[(modelName, PermCodename(c, modelName))] == p
  {
    if codenames != [] {
      var init := codenames[..|codenames| - 1];
      ConfiguredIdsMembers(cat, modelName, init, p);
      assert codenames == init + [codenames[|codenames| - 1]];
    }
  }

  /** The number of configured codenames (with repetitions) whose permission exists. */
  function FoundCount(cat: Catalogue, modelName: string, codenames: seq<string>): nat
  {
    if codenames == [] then 0
    else FoundCount(cat, modelName, codenames[..|codenames| - 1]) + (if Exists(cat, modelName, codenames[|codenames| - 1]) then 1 else 0)
  }

  /** A group's permissions with the added and already-present counts. */
  datatype Counts = Counts(perms: set<PermId>, added: nat, existed: nat)

  /** `_process_model_permissions`: for each codename whose permission exists, count it as present when the
      group has it and otherwise add it; a missing permission is skipped. */
  function Process(perms: set<PermId>, cat: Catalogue, modelName: string, codenames: seq<string>): Counts
  {
    if codenames == [] then Counts(perms, 0, 0)
    else
      var r := Process(perms, cat, modelName, codenames[..|codenames| - 1]);
      var c := codenames[|codenames| - 1];
      if !Exists(cat, modelName, c) then r
      else
        var id := cat[(modelName, PermCodename(c, modelName))];
        if id in r.perms then r.(existed := r.existed + 1) else Counts(r.perms + {id}, r.added + 1, r.existed)
  }

  /** The group ends with its permissions plus every configured one that exists; `added` is the number of
      permissions it gained; and every existing configured codename is counted once, as added or as present. */
  lemma ProcessRules(perms: set<PermId>, cat: Catalogue, modelName: string, codenames: seq<string>)
    ensures var r := Process(perms, cat, modelName, codenames);
      r.perms == perms + ConfiguredIds(cat, modelName, codenames)
      && r.added == |r.perms - perms|
      && r.added + r.existed == FoundCount(cat, modelName, codenames)
  {
    ProcessGrants(perms, cat, modelName, codenames);
    ProcessCounts(perms, cat, modelName, codenames);
  }

  lemma {:induction false} ProcessGrants(perms: set<PermId>, cat: Catalogue, modelName: string, codenames: seq<string>)
    ensures Process(perms, cat, modelName, codenames).perms == perms + ConfiguredIds(cat, modelName, codenames)
  {
    if codenames != [] {
      var init := codenames[..|codenames| - 1];
      ProcessGrants(perms, cat, modelName, init);
    }
  }

  lemma {:induction false} ProcessCounts(perms: set<PermId>, cat: Catalogue, modelName: string, codenames: seq<string>)
    ensures var r := Process(perms, cat, modelName, codenames);
      perms <= r.perms && r.added == |r.perms - perms| && r.added + r.existed == FoundCount(cat, modelName, codenames)
  {
    if codenames != [] {
      var init := codenames[..|codenames| - 1];
      var c := codenames[|codenames| - 1];
      ProcessCounts(perms, cat, modelName, init);
      var r := Process(perms, cat, modelName, init);
      var f := Process(perms, cat, modelName, codenames);
      if Exists(cat, modelName, c) {
        var id := cat[(modelName, PermCodename(c, modelName))];
        if id !in r.perms {
          assert f == Counts(r.perms + {id}, r.added + 1, r.existed);
          GainsAccumulate(perms, r.perms, f.perms);
          assert f.perms - r.perms == {id};
        } else {
          assert f == r.(existed := r.existed + 1);
        }
      } else {
        assert f == r;
      }
    }
  }

  /** A group that already has every configured permission gains nothing and counts them all as present. */
  lemma ProcessAgainAddsNothing(perms: set<PermId>, cat: Catalogue, modelName: string, codenames: seq<string>)
    requires ConfiguredIds(cat, modelName, codenames) <= perms
    ensures Process(perms, cat, modelName, codenames) == Counts(perms, 0, FoundCount(cat, modelName, codenames))
  {
    ProcessRules(perms, cat, modelName, codenames);
    var r := Process(perms, cat, modelName, codenames);
    assert r.perms - perms == {};
  }

  /** The existing permissions a group's configuration names. */
  function ExpectedIds(cat: Catalogue, models: seq<ModelPermissions>): set<PermId>
  {
    if models == [] then {}
    else ExpectedIds(cat, models[..|models| - 1])
         + ConfiguredIds(cat, models[|models| - 1].modelName, models[|models| - 1].codenames)
  }

  /** The permission loop of `_setup_group` over all the group's models, summing the counts. */
  function ProcessAll(perms: set<PermId>, cat: Catalogue, models: seq<ModelPermissions>): Counts
  {
    if models == [] then Counts(perms, 0, 0)
    else
      var r := ProcessAll(perms, cat, models[..|models| - 1]);
      var m := models[|models| - 1];
      var s := Process(r.perms, cat, m.modelName, m.codenames);
      Counts(s.perms, r.added + s.added, r.existed + s.existed)
  }

  /** Over all models, the group gains exactly the expected permissions it lacked, and `added` counts them. */
  lemma ProcessAllRules(perms: set<PermId>, cat: Catalogue, models: seq<ModelPermissions>)
    ensures var r := ProcessAll(perms, cat, models);
      r.perms == perms + ExpectedIds(cat, models) && r.added == |r.perms - perms|
  {
    ProcessAllGrants(perms, cat, models);
    ProcessAllCounts(perms, cat, models);
  }

  lemma {:induction false} ProcessAllGrants(perms: set<PermId>, cat: Catalogue, models: seq<ModelPermissions>)
    ensures ProcessAll(perms, cat, models).perms == perms + ExpectedIds(cat, models)
  {
    if models != [] {
      var init := models[..|models| - 1];
      var m := models[|models| - 1];
      ProcessAllGrants(perms, cat, init);
      ProcessGrants(ProcessAll(perms, cat, init).perms, cat, m.modelName, m.codenames);
    }
  }

  lemma {:induction false} ProcessAllCounts(perms: set<PermId>, cat: Catalogue, models: seq<ModelPermissions>)
    ensures var r := ProcessAll(perms, cat, models);
      perms <= r.perms && r.added == |r.perms - perms|
  {
    if models != [] {
      var init := models[..|models| - 1];
      var m := models[|models| - 1];
      ProcessAllCounts(perms, cat, init);
      var r := ProcessAll(perms, cat, init);
      ProcessCounts(r.perms, cat, m.modelName, m.codenames);
      var s := Process(r.perms, cat, m.modelName, m.codenames);
      assert ProcessAll(perms, cat, models) == Counts(s.perms, r.added + s.added, r.existed + s.existed);
      GainsAccumulate(perms, r.perms, s.perms);
    }
  }

  /** What a group gains in two steps is what it gains in the first plus what it gains in the second. */
  lemma GainsAccumulate(start: set<PermId>, mid: set<PermId>, end: set<PermId>)
    requires start <= mid <= end
    ensures |end - start| == |mid - start| + |end - mid|
  {
    assert end - start == (mid - start) + (end - mid);
    assert (mid - start) !! (end - mid);
  }

  /** A group that already has every expected permission gains nothing over all models. */
  lemma ProcessAllAgainAddsNothing(perms: set<PermId>, cat: Catalogue, models: seq<ModelPermissions>)
    requires ExpectedIds(cat, models) <= perms
    ensures ProcessAll(perms, cat, models).added == 0 && ProcessAll(perms, cat, models).perms == perms
  {
    ProcessAllRules(perms, cat, models);
    var r := ProcessAll(perms, cat, models);
    assert r.perms - perms == {};
  }

  /** The outcome of `_setup_group` for one group: its new permissions and the three counts. */
  datatype GroupOutcome = GroupOutcome(perms: set<PermId>, added: nat, existed: nat, removed: nat)

  /** `_setup_group`: in reset mode the permissions outside the expected set are removed first and counted;
      then the configured permissions are granted. */
  function SetupGroup(perms: set<PermId>, cat: Catalogue, models: seq<ModelPermissions>, reset: bool): GroupOutcome
  {
    var expected := ExpectedIds(cat, models);
    var kept := if reset then perms - (perms - expected) else perms;
    var r := ProcessAll(kept, cat, models);
    GroupOutcome(r.perms, r.added, r.existed, if reset then |perms - expected| else 0)
  }

  /** After a reset the group has exactly the configured permissions that exist, and `removed` counts the
      others it had; without reset nothing is removed and the configured ones are added to what the group had.
      Either way, running again adds nothing. */
  lemma SetupGroupRules(perms: set<PermId>, cat: Catalogue, models: seq<ModelPermissions>, reset: bool)
    ensures var o := SetupGroup(perms, cat, models, reset);
      (reset ==> o.perms == ExpectedIds(cat, models) && o.removed == |perms - ExpectedIds(cat, models)|)
      && (!reset ==> o.perms == perms + ExpectedIds(cat, models) && o.removed == 0)
      && SetupGroup(o.perms, cat, models, reset).added == 0
      && SetupGroup(o.perms, cat, models, reset).perms == o.perms
  {
    var expected := ExpectedIds(cat, models);
    var kept := if reset then perms - (perms - expected) else perms;
    ProcessAllRules(kept, cat, models);
    var o := SetupGroup(perms, cat, models, reset);
    var kept2 := if reset then o.perms - (o.perms - expected) else o.perms;
    assert kept2 == o.perms;
    ProcessAllAgainAddsNothing(o.perms, cat, models);
  }

  /** The totals `handle` reports. */
  datatype Totals = Totals(added: nat, existed: nat, removed: nat)

  /** The state the set-up commands change: each group's permissions and each group's description. */
  datatype SetupState = SetupState(groups: map<(nat, string), set<PermId>>, descriptions: map<(nat, string), string>, totals: Totals)

  /** One iteration of `handle`: the group is created when missing, its description is stored when one is
      configured (created or updated alike), and its permissions are set up. */
  function SetupOne(st: SetupState, cat: Catalogue, c: GroupConfig, reset: bool): SetupState
  {
    var key := GroupKey(c);
    var perms := if key in st.groups then st.groups[key] else {};
    var o := SetupGroup(perms, cat, c.models, reset);
    SetupState(st.groups[key := o.perms],
               if c.description != "" then st.descriptions[key := c.description] else st.descriptions,
               Totals(st.totals.added + o.added, st.totals.existed + o.existed, st.totals.removed + o.removed))
  }

  /** The state after `handle` has set up the groups in `configs`, in order. */
  function SetupAll(st: SetupState, cat: Catalogue, configs: seq<GroupConfig>, reset: bool): SetupState
  {
    if configs == [] then st else SetupOne(SetupAll(st, cat, configs[..|configs| - 1], reset), cat, configs[|configs| - 1], reset)
  }

  /** No two configured groups share a key. */
  predicate DistinctKeys(configs: seq<GroupConfig>)
  {
    forall i, j :: 0 <= i < j < |configs| ==> GroupKey(configs[i]) != GroupKey(configs[j])
  }

  /** The group of `c` exists and holds at least (with `exact`: exactly) its configured existing permissions. */
  predicate GrantedOne(st: SetupState, cat: Catalogue, c: GroupConfig, exact: bool)
  {
    GroupKey(c) in st.groups && ExpectedIds(cat, c.models) <= st.groups[GroupKey(c)]
    && (exact ==> st.groups[GroupKey(c)] == ExpectedIds(cat, c.models))
  }

  predicate Granted(st: SetupState, cat: Catalogue, configs: seq<GroupConfig>, exact: bool)
  {
    forall i :: 0 <= i < |configs| ==> GrantedOne(st, cat, configs[i], exact)
  }

  /** Setting up one group grants it its configuration (exactly, in reset mode) and leaves every other group
      as it was. */
  lemma SetupOneEffect(st: SetupState, cat: Catalogue, c: GroupConfig, reset: bool)
    ensures GrantedOne(SetupOne(st, cat, c, reset), cat, c, reset)
    ensures forall k :: k in st.groups && k != GroupKey(c) ==>
      k in SetupOne(st, cat, c, reset).groups && SetupOne(st, cat, c, reset).groups[k] == st.groups[k]
  {
    var key := GroupKey(c);
    var perms := if key in st.groups then st.groups[key] else {};
    SetupGroupRules(perms, cat, c.models, reset);
  }

  /** A group that already holds its configured permissions gains nothing and keeps them. */
  lemma SetupGroupAgain(perms: set<PermId>, cat: Catalogue, models: seq<ModelPermissions>, reset: bool)
    requires ExpectedIds(cat, models) <= perms
    ensures SetupGroup(perms, cat, models, reset).added == 0
    ensures ExpectedIds(cat, models) <= SetupGroup(perms, cat, models, reset).perms
  {
    var expected := ExpectedIds(cat, models);
    var kept := if reset then perms - (perms - expected) else perms;
    assert expected <= kept;
    ProcessAllAgainAddsNothing(kept, cat, models);
  }

  /** After `handle` with distinct group keys, every configured group has its configured permissions, and
      after a reset run exactly those; groups not configured are untouched. */
  lemma {:induction false} SetupAllGrants(st: SetupState, cat: Catalogue, configs: seq<GroupConfig>, reset: bool)
    requires DistinctKeys(configs)
    ensures Granted(SetupAll(st, cat, configs, reset), cat, configs, reset)
    ensures forall k :: k in st.groups && (forall i :: 0 <= i < |configs| ==> GroupKey(configs[i]) != k) ==>
      k in SetupAll(st, cat, configs, reset).groups && SetupAll(st, cat, configs, reset).groups[k] == st.groups[k]
  {
    if configs != [] {
      var init := configs[..|configs| - 1];
      var c := configs[|configs| - 1];
      assert DistinctKeys(init);
      SetupAllGrants(st, cat, init, reset);
      var mid := SetupAll(st, cat, init, reset);
      var r := SetupOne(mid, cat, c, reset);
      SetupOneEffect(mid, cat, c, reset);
      GrantedExtend(mid, r, cat, configs, reset);
      forall k | k in st.groups && (forall i :: 0 <= i < |configs| ==> GroupKey(configs[i]) != k)
        ensures k in r.groups && r.groups[k] == st.groups[k]
      {
        assert forall i :: 0 <= i < |init| ==> GroupKey(init[i]) != k by {
          forall i | 0 <= i < |init|
            ensures GroupKey(init[i]) != k
          {
            assert configs[i] == init[i];
          }
        }
        assert GroupKey(configs[|configs| - 1]) != k;
      }
    }
  }

  /** The last configured group's key is not among the earlier ones. */
  lemma LastKeyFresh(configs: seq<GroupConfig>)
    requires configs != [] && DistinctKeys(configs)
    ensures DistinctKeys(configs[..|configs| - 1])
    ensures forall i :: 0 <= i < |configs| - 1 ==> GroupKey(configs[i]) != GroupKey(configs[|configs| - 1])
  {
  }

  /** What holds for every configured group holds for the earlier ones and for the last. */
  lemma GrantedSplit(st: SetupState, cat: Catalogue, configs: seq<GroupConfig>, exact: bool)
    requires configs != [] && Granted(st, cat, configs, exact)
    ensures Granted(st, cat, configs[..|configs| - 1], exact)
    ensures GrantedOne(st, cat, configs[|configs| - 1], exact)
  {
    var init := configs[..|configs| - 1];
    forall i | 0 <= i < |init|
      ensures GrantedOne(st, cat, init[i], exact)
    {
      assert init[i] == configs[i];
    }
  }

  /** From a state where every configured group already holds its configured permissions, `handle` adds
      nothing and that stays so. */
  lemma {:induction false} SetupAllAgainAddsNothing(st: SetupState, cat: Catalogue, configs: seq<GroupConfig>, reset: bool)
    requires DistinctKeys(configs)
    requires Granted(st, cat, configs, false)
    ensures SetupAll(st, cat, configs, reset).totals.added == st.totals.added
    ensures Granted(SetupAll(st, cat, configs, reset), cat, configs, false)
  {
    if configs != [] {
      var init := configs[..|configs| - 1];
      var c := configs[|configs| - 1];
      var key := GroupKey(c);
      LastKeyFresh(configs);
      GrantedSplit(st, cat, configs, false);
      SetupAllAgainAddsNothing(st, cat, init, reset);
      SetupAllGrants(st, cat, init, reset);
      var mid := SetupAll(st, cat, init, reset);
      assert key in mid.groups && mid.groups[key] == st.groups[key];
      SetupGroupAgain(mid.groups[key], cat, c.models, reset);
      var r := SetupOne(mid, cat, c, reset);
      SetupOneEffect(mid, cat, c, reset);
      assert GrantedOne(r, cat, c, false);
      GrantedExtend(mid, r, cat, configs, false);
    }
  }

  /** A group set-up that grants the last configured group and leaves the other groups alone keeps what
      the earlier groups were granted. */
  lemma GrantedExtend(mid: SetupState, r: SetupState, cat: Catalogue, configs: seq<GroupConfig>, exact: bool)
    requires configs != [] && DistinctKeys(configs)
    requires Granted(mid, cat, configs[..|configs| - 1], exact)
    requires GrantedOne(r, cat, configs[|configs| - 1], exact)
    requires forall k :: k in mid.groups && k != GroupKey(configs[|configs| - 1]) ==>
      k in r.groups && r.groups[k] == mid.groups[k]
    ensures Granted(r, cat, configs, exact)
  {
    var init := configs[..|configs| - 1];
    forall i | 0 <= i < |configs|
      ensures GrantedOne(r, cat, configs[i], exact)
    {
      if i < |init| {
        assert configs[i] == init[i];
        assert GrantedOne(mid, cat, init[i], exact);
        assert GroupKey(configs[i]) != GroupKey(configs[|configs| - 1]);
      }
    }
  }

  /** Running `handle` twice with the same distinct-keyed configuration: the second run adds no permission. */
  lemma SecondRunAddsNothing(st: SetupState, cat: Catalogue, configs: seq<GroupConfig>, reset: bool)
    requires DistinctKeys(configs)
    ensures var first := SetupAll(st, cat, configs, reset);
      SetupAll(first.(totals := Totals(0, 0, 0)), cat, configs, reset).totals.added == 0
  {
    SetupAllGrants(st, cat, configs, reset);
    var first := SetupAll(st, cat, configs, reset);
    var again := first.(totals := Totals(0, 0, 0));
    assert Granted(again, cat, configs, false) by {
      forall i | 0 <= i < |configs|
        ensures GrantedOne(again, cat, configs[i], false)
      {
        assert GrantedOne(first, cat, configs[i], reset);
      }
    }
    SetupAllAgainAddsNothing(again, cat, configs, reset);
  }

  /** `_process_model_permissions` on a group's permission set. */
  method ProcessModelPermissions(perms: set<PermId>, cat: Catalogue, modelName: string, codenames: seq<string>)
    returns (newPerms: set<PermId>, added: nat, existed: nat)
    ensures Counts(newPerms, added, existed) == Process(perms, cat, modelName, codenames)
  {
    newPerms, added, existed := perms, 0, 0;
    for i := 0 to |codenames|
      invariant Counts(newPerms, added, existed) == Process(perms, cat, modelName, codenames[..i])
    {
      assert codenames[..i + 1][..i] == codenames[..i];
      var permCodename := codenames[i] + "_" + modelName;
      if (modelName, permCodename) in cat {
        var id := cat[(modelName, permCodename)];
        if id in newPerms {
          existed := existed + 1;
        } else {
          newPerms := newPerms + {id};
          added := added + 1;
        }
      }
    }
    assert codenames[..|codenames|] == codenames;
  }

  /** One more model in the grant loop. */
  lemma ProcessAllStep(perms: set<PermId>, cat: Catalogue, models: seq<ModelPermissions>, m: nat)
    requires m < |models|
    ensures var r := ProcessAll(perms, cat, models[..m]);
      var s := Process(r.perms, cat, models[m].modelName, models[m].codenames);
      ProcessAll(perms, cat, models[..m + 1]) == Counts(s.perms, r.added + s.added, r.existed + s.existed)
  {
    assert models[..m + 1][..m] == models[..m];
  }

  /** The reset block of `_setup_group`: in reset mode the permissions the configuration does not name are
      removed and counted; otherwise nothing is removed. */
  method RemoveUnexpected(perms: set<PermId>, cat: Catalogue, models: seq<ModelPermissions>, reset: bool)
    returns (kept: set<PermId>, removed: nat)
    ensures reset ==> kept == perms * ExpectedIds(cat, models) && removed == |perms - ExpectedIds(cat, models)|
    ensures !reset ==> kept == perms && removed == 0
  {
    kept, removed := perms, 0;
    if reset {
      var expected := ExpectedIds(cat, models);
      var toRemove := perms - expected;
      if toRemove != {} {
        kept := kept - toRemove;
        removed := |toRemove|;
      }
      assert kept == perms * expected;
    }
  }

  /** The permission part of `_setup_group`: the reset removal, then the grant loop over the models. */
  method SetupPermissions(perms: set<PermId>, cat: Catalogue, models: seq<ModelPermissions>, reset: bool)
    returns (newPerms: set<PermId>, added: nat, existed: nat, removed: nat)
    ensures GroupOutcome(newPerms, added, existed, removed) == SetupGroup(perms, cat, models, reset)
  {
    var kept;
    kept, removed := RemoveUnexpected(perms, cat, models, reset);
    assert reset ==> kept == perms - (perms - ExpectedIds(cat, models));
    newPerms, added, existed := kept, 0, 0;
    for m := 0 to |models|
      invariant Counts(newPerms, added, existed) == ProcessAll(kept, cat, models[..m])
    {
      ProcessAllStep(kept, cat, models, m);
      var a, e;
      newPerms, a, e := ProcessModelPermissions(newPerms, cat, models[m].modelName, models[m].codenames);
      added, existed := added + a, existed + e;
    }
    assert models[..|models|] == models;
  }

  /** An app's group set-up command, with its configuration and the permission catalogue. */
  class GroupSetupCommand {
    const groupsConfig: seq<GroupConfig>
    const catalogue: Catalogue
    var groups: map<(nat, string), set<PermId>>
    var descriptions: map<(nat, string), string>

    constructor (groupsConfig: seq<GroupConfig>, catalogue: Catalogue, groups: map<(nat, string), set<PermId>>,
                 descriptions: map<(nat, string), string>)
      ensures this.groupsConfig == groupsConfig && this.catalogue == catalogue
      ensures this.groups == groups && this.descriptions == descriptions
    {
      this.groupsConfig := groupsConfig;
      this.catalogue := catalogue;
      this.groups := groups;
      this.descriptions := descriptions;
    }

    /** `_setup_group` for one configuration entry: `get_or_create` of the group, its description, then
        its permissions. */
    method SetupGroupEntry(c: GroupConfig, reset: bool) returns (added: nat, existed: nat, removed: nat)
      modifies this
      ensures var st := SetupOne(SetupState(old(groups), old(descriptions), Totals(0, 0, 0)), catalogue, c, reset);
        st.groups == groups && st.descriptions == descriptions && st.totals == Totals(added, existed, removed)
    {
      var key := (c.id, c.name);
      if key !in groups {
        groups := groups[key := {}];
      }
      if c.description != "" {
        descriptions := descriptions[key := c.description];
      }
      var perms;
      perms, added, existed, removed := SetupPermissions(groups[key], catalogue, c.models, reset);
      groups := groups[key := perms];
    }

    /** `handle`: an empty configuration is an error that changes nothing; otherwise each configured group is
        set up in turn and the totals are summed. */
    method Handle(reset: bool) returns (totals: Option<Totals>)
      modifies this
      ensures groupsConfig == [] ==> totals == None && groups == old(groups) && descriptions == old(descriptions)
      ensures groupsConfig != [] ==>
        totals.Some?
        && SetupAll(SetupState(old(groups), old(descriptions), Totals(0, 0, 0)), catalogue, groupsConfig, reset)
           == SetupState(groups, descriptions, totals.value)
    {
      if groupsConfig == [] {
        return None;
      }
      ghost var start := SetupState(groups, descriptions, Totals(0, 0, 0));
      var t := Totals(0, 0, 0);
      for i := 0 to |groupsConfig|
        invariant SetupAll(start, catalogue, groupsConfig[..i], reset) == SetupState(groups, descriptions, t)
      {
        SetupAllStep(start, catalogue, groupsConfig, i, reset);
        ghost var before := SetupState(groups, descriptions, t);
        var a, e, r := SetupGroupEntry(groupsConfig[i], reset);
        SetupOneTotals(before, catalogue, groupsConfig[i], reset);
        t := Totals(t.added + a, t.existed + e, t.removed + r);
      }
      assert groupsConfig[..|groupsConfig|] == groupsConfig;
      totals := Some(t);
    }
  }

  /** One more group in the loop of `handle`. */
  lemma SetupAllStep(st: SetupState, cat: Catalogue, configs: seq<GroupConfig>, i: nat, reset: bool)
    requires i < |configs|
    ensures SetupAll(st, cat, configs[..i + 1], reset) == SetupOne(SetupAll(st, cat, configs[..i], reset), cat, configs[i], reset)
  {
    assert configs[..i + 1][..i] == configs[..i];
  }

  /** Setting up a group adds its counts to the running totals and does not otherwise depend on them. */
  lemma SetupOneTotals(st: SetupState, cat: Catalogue, c: GroupConfig, reset: bool)
    ensures var z := SetupOne(st.(totals := Totals(0, 0, 0)), cat, c, reset);
      SetupOne(st, cat, c, reset)
      == z.(totals := Totals(st.totals.added + z.totals.added, st.totals.existed + z.totals.existed,
                             st.totals.removed + z.totals.removed))
  {
  }
}
