/** The merge of the kube-apiserver admission plugins that a Shoot configures into the default plugins of its
    Kubernetes version (`computeKubeAPIServerAdmissionPlugins` in pkg/operation/botanist/kubeapiserver.go).

    For each configured plugin, in order: if a plugin of the same name is already in the list, the first such
    plugin is overwritten in place; otherwise the configured plugin is appended. The search covers plugins
    appended by earlier iterations too, so of several configured plugins with one name the last one wins. */
module AdmissionPluginMerge {
  import opened Wrappers

  /** An admission plugin: its name and its opaque configuration (raw JSON in the source, absent when the
      plugin is merely enabled). */
  datatype AdmissionPlugin = AdmissionPlugin(name: string, config: Option<string>)

  /** The plugin names of `s`, in order. */
  function Names(s: seq<AdmissionPlugin>): (r: seq<string>)
    ensures |r| == |s|
    ensures forall i :: 0 <= i < |s| ==> r[i] == s[i].name
  {
    if s == [] then [] else [s[0].name] + Names(s[1..])
  }

  /** The first index of `s` holding a plugin called `name`, if there is one. */
  function FindName(s: seq<AdmissionPlugin>, name: string): (r: Option<nat>)
    ensures r.Some? ==> r.value < |s| && s[r.value].name == name
    ensures r.Some? ==> forall k :: 0 <= k < r.value ==> s[k].name != name
    ensures r.None? <==> forall k :: 0 <= k < |s| ==> s[k].name != name
  {
    if s == [] then None
    else if s[0].name == name then Some(0)
    else match FindName(s[1..], name)
      case None => None
      case Some(i) => Some(i + 1)
  }

  /** One iteration of the outer loop: `p` overwrites the first plugin of its name, or is appended. */
  function MergeOne(acc: seq<AdmissionPlugin>, p: AdmissionPlugin): seq<AdmissionPlugin>
  {
    match FindName(acc, p.name)
    case Some(i) => acc[i := p]
    case None => acc + [p]
  }

  /** The whole merge, as a left fold of `MergeOne` over the configured plugins. */
  function MergePlugins(defaults: seq<AdmissionPlugin>, configured: seq<AdmissionPlugin>): seq<AdmissionPlugin>
    decreases |configured|
  {
    if configured == [] then defaults
    else MergePlugins(MergeOne(defaults, configured[0]), configured[1..])
  }

  /** The names of `configured` that are not in `known`, each once, in the order they first occur. */
  function NewNames(known: seq<string>, configured: seq<AdmissionPlugin>): seq<string>
    decreases |configured|
  {
    if configured == [] then []
    else if configured[0].name in known then NewNames(known, configured[1..])
    else [configured[0].name] + NewNames(known + [configured[0].name], configured[1..])
  }

  /** The merge as the source writes it: a nested loop that overwrites in place or appends. */
  method ComputeAdmissionPlugins(defaultPlugins: seq<AdmissionPlugin>, configuredPlugins: seq<AdmissionPlugin>)
    returns (plugins: seq<AdmissionPlugin>)
    ensures plugins == MergePlugins(defaultPlugins, configuredPlugins)
  {
    plugins := defaultPlugins;
    var j := 0;
    while j < |configuredPlugins|
      invariant 0 <= j <= |configuredPlugins|
      invariant MergePlugins(plugins, configuredPlugins[j..]) == MergePlugins(defaultPlugins, configuredPlugins)
    {
      var plugin := configuredPlugins[j];
      ghost var before := plugins;
      var pluginOverwritesDefault := false;
      var i := 0;
      while i < |plugins|
        invariant 0 <= i <= |plugins|
        invariant plugins == before && !pluginOverwritesDefault
        invariant forall k :: 0 <= k < i ==> plugins[k].name != plugin.name
      {
        if plugins[i].name == plugin.name {
          FindNameFirst(plugins, plugin.name, i);
          pluginOverwritesDefault := true;
          plugins := plugins[i := plugin];
          break;
        }
        i := i + 1;
      }
      if !pluginOverwritesDefault {
        assert FindName(plugins, plugin.name) == None;
        plugins := plugins + [plugin];
      }
      assert plugins == MergeOne(before, plugin);
      assert configuredPlugins[j..][0] == plugin && configuredPlugins[j..][1..] == configuredPlugins[j + 1..];
      j := j + 1;
    }
  }

  lemma FindNameFirst(s: seq<AdmissionPlugin>, name: string, i: nat)
    requires i < |s| && s[i].name == name
    requires forall k :: 0 <= k < i ==> s[k].name != name
    ensures FindName(s, name) == Some(i)
  {
  }

  /** One merge step keeps every name at its index, and appends the plugin's name exactly when it was new. */
  lemma MergeOneNames(acc: seq<AdmissionPlugin>, p: AdmissionPlugin)
    ensures Names(MergeOne(acc, p)) == if p.name in Names(acc) then Names(acc) else Names(acc) + [p.name]
  {
    match FindName(acc, p.name)
    case Some(i) =>
      NamesUpdate(acc, i, p);
      assert Names(acc)[i] == p.name;
      assert Names(acc)[i := p.name] == Names(acc);
    case None =>
      NamesAppend(acc, p);
      assert p.name !in Names(acc) by {
        forall k | 0 <= k < |acc| ensures Names(acc)[k] != p.name {
          assert acc[k].name != p.name;
        }
      }
  }

  lemma NamesUpdate(acc: seq<AdmissionPlugin>, i: nat, p: AdmissionPlugin)
    requires i < |acc|
    ensures Names(acc[i := p]) == Names(acc)[i := p.name]
  {
    var r := acc[i := p];
    assert forall j :: 0 <= j < |r| ==> Names(r)[j] == Names(acc)[i := p.name][j];
  }

  lemma NamesAppend(acc: seq<AdmissionPlugin>, p: AdmissionPlugin)
    ensures Names(acc + [p]) == Names(acc) + [p.name]
  {
    var r := acc + [p];
    assert forall j :: 0 <= j < |r| ==> Names(r)[j] == (Names(acc) + [p.name])[j];
  }

  /** The names of the merge are the default names, index for index, followed by the new configured names
      in the order they first occur. */
  lemma {:induction false} MergeNames(acc: seq<AdmissionPlugin>, configured: seq<AdmissionPlugin>)
    ensures Names(MergePlugins(acc, configured)) == Names(acc) + NewNames(Names(acc), configured)
    decreases |configured|
  {
    if configured != [] {
      var p := configured[0];
      var rest := configured[1..];
      var acc' := MergeOne(acc, p);
      assert MergePlugins(acc, configured) == MergePlugins(acc', rest);
      MergeOneNames(acc, p);
      MergeNames(acc', rest);
      if p.name in Names(acc) {
        assert NewNames(Names(acc), configured) == NewNames(Names(acc), rest);
      } else {
        var known' := Names(acc) + [p.name];
        assert Names(acc') == known';
        assert NewNames(Names(acc), configured) == [p.name] + NewNames(known', rest);
        assert known' + NewNames(known', rest) == Names(acc) + ([p.name] + NewNames(known', rest));
      }
    }
  }

  /** Facts about the appended names: none was known before, none repeats, each is a configured name, and
      every configured name ends up either among the known names or among the appended ones. */
  lemma {:induction false} NewNamesFacts(known: seq<string>, configured: seq<AdmissionPlugin>)
    ensures |NewNames(known, configured)| <= |configured|
    ensures forall t :: 0 <= t < |NewNames(known, configured)| ==> NewNames(known, configured)[t] !in known
    ensures forall t, u :: 0 <= t < u < |NewNames(known, configured)| ==>
              NewNames(known, configured)[t] != NewNames(known, configured)[u]
    ensures forall t :: 0 <= t < |NewNames(known, configured)| ==>
              NewNames(known, configured)[t] in Names(configured)
    ensures forall j :: 0 <= j < |configured| ==>
              configured[j].name in known || configured[j].name in NewNames(known, configured)
    decreases |configured|
  {
    if configured != [] {
      var p := configured[0];
      var rest := configured[1..];
      assert Names(configured) == [p.name] + Names(rest);
      if p.name in known {
        NewNamesFacts(known, rest);
        forall j | 0 <= j < |configured|
          ensures configured[j].name in known || configured[j].name in NewNames(known, configured)
        {
          if j > 0 { assert configured[j] == rest[j - 1]; }
        }
      } else {
        var known' := known + [p.name];
        NewNamesFacts(known', rest);
        var tail := NewNames(known', rest);
        assert NewNames(known, configured) == [p.name] + tail;
        forall j | 0 <= j < |configured|
          ensures configured[j].name in known || configured[j].name in NewNames(known, configured)
        {
          if j > 0 {
            assert configured[j] == rest[j - 1];
            assert configured[j].name in known' || configured[j].name in tail;
          }
        }
      }
    }
  }

  /** A plugin whose name no configured plugin carries is left where it is, unchanged. */
  lemma {:induction false} MergeKeepsUntouched(acc: seq<AdmissionPlugin>, configured: seq<AdmissionPlugin>, i: nat)
    requires i < |acc|
    requires forall j :: 0 <= j < |configured| ==> configured[j].name != acc[i].name
    ensures i < |MergePlugins(acc, configured)| && MergePlugins(acc, configured)[i] == acc[i]
    decreases |configured|
  {
    if configured != [] {
      var acc' := MergeOne(acc, configured[0]);
      assert acc'[i] == acc[i];
      forall j | 0 <= j < |configured[1..]| ensures configured[1..][j].name != acc'[i].name {
        assert configured[1..][j] == configured[j + 1];
      }
      MergeKeepsUntouched(acc', configured[1..], i);
    }
  }

  /** The first index of a name that is already present does not move during the merge. */
  lemma FindNameStable(acc: seq<AdmissionPlugin>, configured: seq<AdmissionPlugin>, name: string)
    requires FindName(acc, name).Some?
    ensures FindName(MergePlugins(acc, configured), name) == FindName(acc, name)
  {
    var r := MergePlugins(acc, configured);
    var i := FindName(acc, name).value;
    MergeNames(acc, configured);
    assert forall k :: 0 <= k < |acc| ==> r[k].name == acc[k].name by {
      forall k | 0 <= k < |acc| ensures r[k].name == acc[k].name {
        assert Names(r)[k] == Names(acc)[k];
      }
    }
  }

  /** Of the configured plugins with one name, the last one is what the merged list holds at that name's
      first index. */
  lemma {:induction false} MergeLastConfiguredWins(acc: seq<AdmissionPlugin>, configured: seq<AdmissionPlugin>, j: nat)
    requires j < |configured|
    requires forall j' :: j < j' < |configured| ==> configured[j'].name != configured[j].name
    ensures FindName(MergePlugins(acc, configured), configured[j].name).Some?
    ensures MergePlugins(acc, configured)[FindName(MergePlugins(acc, configured), configured[j].name).value]
            == configured[j]
    decreases |configured|
  {
    var p := configured[0];
    var rest := configured[1..];
    var acc' := MergeOne(acc, p);
    if j == 0 {
      var k: nat := if FindName(acc, p.name).Some? then FindName(acc, p.name).value else |acc|;
      assert acc'[k] == p;
      assert FindName(acc', p.name) == Some(k);
      forall j' | 0 <= j' < |rest| ensures rest[j'].name != acc'[k].name {
        assert rest[j'] == configured[j' + 1];
      }
      MergeKeepsUntouched(acc', rest, k);
      FindNameStable(acc', rest, p.name);
    } else {
      assert rest[j - 1] == configured[j];
      forall j' | j - 1 < j' < |rest| ensures rest[j'].name != rest[j - 1].name {
        assert rest[j'] == configured[j' + 1];
      }
      MergeLastConfiguredWins(acc', rest, j - 1);
    }
  }

  /** A configured plugin whose name a default plugin carries overwrites the first such default in place,
      unless a later configured plugin of the same name overwrites it again. */
  lemma MergeOverridesInPlace(defaults: seq<AdmissionPlugin>, configured: seq<AdmissionPlugin>, j: nat, i: nat)
    requires j < |configured|
    requires forall j' :: j < j' < |configured| ==> configured[j'].name != configured[j].name
    requires FindName(defaults, configured[j].name) == Some(i)
    ensures i < |MergePlugins(defaults, configured)| && MergePlugins(defaults, configured)[i] == configured[j]
  {
    FindNameStable(defaults, configured, configured[j].name);
    MergeLastConfiguredWins(defaults, configured, j);
  }

  /** The properties the merged list promises as a whole: it extends the defaults with the new configured
      names only, in order of first occurrence and without repetition; it keeps every default name at its
      index; it leaves every untouched default as it was; and it carries every configured name. */
  lemma MergeProperties(defaults: seq<AdmissionPlugin>, configured: seq<AdmissionPlugin>)
    ensures |defaults| <= |MergePlugins(defaults, configured)| <= |defaults| + |configured|
    ensures Names(MergePlugins(defaults, configured))[..|defaults|] == Names(defaults)
    ensures Names(MergePlugins(defaults, configured))[|defaults|..] == NewNames(Names(defaults), configured)
    ensures forall i :: 0 <= i < |defaults| && (forall j :: 0 <= j < |configured| ==> configured[j].name != defaults[i].name)
              ==> MergePlugins(defaults, configured)[i] == defaults[i]
    ensures forall j :: 0 <= j < |configured| ==> configured[j].name in Names(MergePlugins(defaults, configured))
  {
    var r := MergePlugins(defaults, configured);
    MergeNames(defaults, configured);
    NewNamesFacts(Names(defaults), configured);
    assert Names(r)[..|defaults|] == Names(defaults);
    assert Names(r)[|defaults|..] == NewNames(Names(defaults), configured);
    forall i | 0 <= i < |defaults| && (forall j :: 0 <= j < |configured| ==> configured[j].name != defaults[i].name)
      ensures r[i] == defaults[i]
    {
      MergeKeepsUntouched(defaults, configured, i);
    }
  }
}
