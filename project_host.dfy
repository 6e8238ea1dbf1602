/** The MSBuild-driven project host (DefaultRazorProjectHost.cs): it reads the Razor rules of
    a project subscription update, picks the default configuration, lists the current and
    the changed or removed documents, and tells the project manager to update the project,
    remove the changed documents and add the current ones, in that order. */
module ProjectHost {
  import opened Common
  import D = Documents

  /** The four rules the host subscribes to. */
  datatype RuleName = RazorGeneral | RazorConfiguration | RazorExtension | RazorGenerateWithTargetPath

  /** The rule properties and item metadata the host reads. */
  datatype PropertyName = RazorLangVersion | RazorDefaultConfiguration | Extensions | TargetPath

  type Properties = map<PropertyName, string>

  /** One item of a rule: its key and its metadata. */
  datatype Item = Item(key: string, metadata: Properties)

  /** A rule snapshot: its properties, and its items in enumeration order. */
  datatype RuleSnapshot = RuleSnapshot(properties: Properties, items: seq<Item>)

  /** The item keys a rule change removed and changed. */
  datatype Difference = Difference(removedItems: seq<string>, changedItems: seq<string>)

  /** A rule change: the difference and the rule as it was before. */
  datatype RuleChange = RuleChange(difference: Difference, before: RuleSnapshot)

  /** IProjectSubscriptionUpdate: the current rule snapshots and the per-rule changes. */
  datatype SubscriptionUpdate = SubscriptionUpdate(currentState: map<RuleName, RuleSnapshot>,
                                                   projectChanges: map<RuleName, RuleChange>)

  /** HostDocument, which the modelled code does not define: the two paths its constructor takes. */
  datatype HostDocument = HostDocument(filePath: string, targetPath: string)

  /** What the host cannot see: char.IsWhiteSpace, RazorLanguageVersion.TryParse,
      UnconfiguredProject.MakeRooted and FullPath, and the two-argument HostProject
      constructor, which the modelled code does not define. */
  datatype Environment = Environment(isWhiteSpace: char -> bool, tryParse: string -> Option<D.LanguageVersion>,
                                     makeRooted: string -> string, projectPath: string,
                                     newHostProject: (string, D.RazorConfiguration) -> D.HostProject)

  /** string.IsNullOrWhiteSpace for a present string. */
  predicate Blank(env: Environment, s: string)
  {
    IsWhiteSpaceOnly(env.isWhiteSpace, s)
  }

  /** TryGetLangaugeVersion: found when the general rule has a non-blank language version;
      text that does not parse still succeeds, with Latest. */
  function TryGetLanguageVersion(env: Environment, update: SubscriptionUpdate): (r: Option<D.LanguageVersion>)
    ensures r.Some? <==>
      RazorGeneral in update.currentState && RazorLangVersion in update.currentState[RazorGeneral].properties &&
      !Blank(env, update.currentState[RazorGeneral].properties[RazorLangVersion])
    ensures r.Some? ==>
      var text := update.currentState[RazorGeneral].properties[RazorLangVersion];
      (env.tryParse(text).Some? ==> r.value == env.tryParse(text).value) &&
      (env.tryParse(text).None? ==> r.value == D.Latest)
  {
    if RazorGeneral in update.currentState && RazorLangVersion in update.currentState[RazorGeneral].properties then
      var text := update.currentState[RazorGeneral].properties[RazorLangVersion];
      if Blank(env, text) then None
      else if env.tryParse(text).Some? then env.tryParse(text)
      else Some(D.Latest)
    else None
  }

  /** TryGetDefaultConfigurationName: the general rule's default configuration, when non-blank. */
  function TryGetDefaultConfigurationName(env: Environment, update: SubscriptionUpdate): (r: Option<string>)
    ensures r.Some? <==>
      RazorGeneral in update.currentState && RazorDefaultConfiguration in update.currentState[RazorGeneral].properties &&
      !Blank(env, update.currentState[RazorGeneral].properties[RazorDefaultConfiguration])
    ensures r.Some? ==> r.value == update.currentState[RazorGeneral].properties[RazorDefaultConfiguration]
  {
    if RazorGeneral in update.currentState && RazorDefaultConfiguration in update.currentState[RazorGeneral].properties &&
       !Blank(env, update.currentState[RazorGeneral].properties[RazorDefaultConfiguration])
    then Some(update.currentState[RazorGeneral].properties[RazorDefaultConfiguration])
    else None
  }

  /** The keys of a rule's items, in order. */
  function Keys(items: seq<Item>): (r: seq<string>)
    ensures |r| == |items| && forall k :: 0 <= k < |items| ==> r[k] == items[k].key
  {
    seq(|items|, k requires 0 <= k < |items| => items[k].key)
  }

  /** The extensions the extension rule declares: one per item with a non-empty key, in order. */
  function DeclaredExtensions(items: seq<Item>): (r: seq<D.RazorExtension>)
    ensures |r| <= |items|
    ensures forall e :: e in r ==> e.extensionName != "" && e.extensionName in Keys(items)
    ensures forall k :: 0 <= k < |items| && items[k].key != "" ==> D.RazorExtension(items[k].key) in r
  {
    if items == [] then []
    else
      var prior := DeclaredExtensions(items[..|items| - 1]);
      var last := items[|items| - 1];
      assert Keys(items[..|items| - 1]) == Keys(items)[..|items| - 1];
      if last.key != "" then prior + [D.RazorExtension(last.key)] else prior
  }

  /** The position of the first `;`. */
  function SeparatorIndex(text: string): (i: nat)
    requires ';' in text
    ensures i < |text| && text[i] == ';' && ';' !in text[..i]
  {
    if text[0] == ';' then 0
    else
      var j := SeparatorIndex(text[1..]);
      assert text[..j + 1] == [text[0]] + text[1..][..j];
      j + 1
  }

  /** string.Split on `;` with RemoveEmptyEntries: the non-empty runs between separators. */
  function SplitEntries(text: string): (r: seq<string>)
    ensures forall k :: 0 <= k < |r| ==> r[k] != "" && ';' !in r[k]
    decreases |text|
  {
    if ';' !in text then (if text == "" then [] else [text])
    else
      var i := SeparatorIndex(text);
      (if i == 0 then [] else [text[..i]]) + SplitEntries(text[i + 1..])
  }

  /** The entries joined with `;`. */
  function Join(entries: seq<string>): string
  {
    if |entries| == 0 then ""
    else if |entries| == 1 then entries[0]
    else entries[0] + ";" + Join(entries[1..])
  }

  /** Splitting undoes joining: entries that are non-empty and free of `;` come back in order. */
  lemma {:induction false} SplitJoin(entries: seq<string>)
    requires forall k :: 0 <= k < |entries| ==> entries[k] != "" && ';' !in entries[k]
    ensures SplitEntries(Join(entries)) == entries
  {
    if |entries| > 1 {
      var text := Join(entries);
      var head := entries[0];
      assert text == head + ";" + Join(entries[1..]);
      assert text[|head|] == ';' && text[..|head|] == head;
      assert ';' in text;
      var i := SeparatorIndex(text);
      assert forall k :: 0 <= k < |head| ==> text[k] == head[k] && text[k] != ';';
      assert i >= |head|;
      assert i <= |head| by {
        assert ';' !in text[..i] && text[|head|] == ';';
      }
      assert text[i + 1..] == Join(entries[1..]);
      SplitJoin(entries[1..]);
      assert [head] + entries[1..] == entries;
    }
  }

  /** The extensions with the given name, first match, as FirstOrDefault finds it. */
  function FirstNamed(declared: seq<D.RazorExtension>, name: string): (r: Option<D.RazorExtension>)
    ensures r.Some? <==> exists k :: 0 <= k < |declared| && declared[k].extensionName == name
    ensures r.Some? ==>
      exists k :: 0 <= k < |declared| && declared[k] == r.value && r.value.extensionName == name &&
                  forall j :: 0 <= j < k ==> declared[j].extensionName != name
  {
    if declared == [] then None
    else if declared[0].extensionName == name then Some(declared[0])
    else
      var r := FirstNamed(declared[1..], name);
      FirstNamedTail(declared, name, r);
      r
  }

  /** The step of FirstNamed past a head that does not match. */
  lemma FirstNamedTail(declared: seq<D.RazorExtension>, name: string, r: Option<D.RazorExtension>)
    requires declared != [] && declared[0].extensionName != name
    requires r.Some? <==> exists k :: 0 <= k < |declared[1..]| && declared[1..][k].extensionName == name
    requires r.Some? ==>
      exists k :: 0 <= k < |declared[1..]| && declared[1..][k] == r.value && r.value.extensionName == name &&
                  forall j :: 0 <= j < k ==> declared[1..][j].extensionName != name
    ensures r.Some? <==> exists k :: 0 <= k < |declared| && declared[k].extensionName == name
    ensures r.Some? ==>
      exists k :: 0 <= k < |declared| && declared[k] == r.value && r.value.extensionName == name &&
                  forall j :: 0 <= j < k ==> declared[j].extensionName != name
  {
    if r.Some? {
      var k :| 0 <= k < |declared[1..]| && declared[1..][k] == r.value && r.value.extensionName == name &&
               forall j :: 0 <= j < k ==> declared[1..][j].extensionName != name;
      assert declared[k + 1] == r.value;
      forall j | 0 <= j < k + 1 ensures declared[j].extensionName != name {
        if j > 0 { assert declared[1..][j - 1] == declared[j]; }
      }
    } else {
      forall k | 0 <= k < |declared| ensures declared[k].extensionName != name {
        if k > 0 { assert declared[1..][k - 1] == declared[k]; }
      }
    }
  }

  /** The Select/Where pipeline: each name resolved to its first declared extension, unknown
      names dropped. */
  function Resolve(names: seq<string>, declared: seq<D.RazorExtension>): seq<D.RazorExtension>
  {
    if names == [] then []
    else
      var head := FirstNamed(declared, names[0]);
      (if head.Some? then [head.value] else []) + Resolve(names[1..], declared)
  }

  /** Resolution keeps order: resolving two lists back to back is resolving their concatenation. */
  lemma {:induction false} ResolveAppend(a: seq<string>, b: seq<string>, declared: seq<D.RazorExtension>)
    ensures Resolve(a + b, declared) == Resolve(a, declared) + Resolve(b, declared)
  {
    if a == [] {
      assert a + b == b;
    } else {
      assert (a + b)[0] == a[0] && (a + b)[1..] == a[1..] + b;
      ResolveAppend(a[1..], b, declared);
    }
  }

  /** Every resolved extension is declared and was named; when every name is declared
      nothing is dropped and the i-th extension carries the i-th name. */
  lemma {:induction false} ResolveNamesDeclared(names: seq<string>, declared: seq<D.RazorExtension>)
    ensures var r := Resolve(names, declared);
      |r| <= |names| && forall e :: e in r ==> e in declared && e.extensionName in names
    ensures (forall n :: n in names ==> exists k :: 0 <= k < |declared| && declared[k].extensionName == n) ==>
      var r := Resolve(names, declared);
      |r| == |names| && forall i :: 0 <= i < |names| ==> r[i].extensionName == names[i]
  {
    if names != [] {
      ResolveNamesDeclared(names[1..], declared);
      var head := FirstNamed(declared, names[0]);
      var r := Resolve(names, declared);
      if (forall n :: n in names ==> exists k :: 0 <= k < |declared| && declared[k].extensionName == n) {
        assert names[0] in names;
        assert forall n :: n in names[1..] ==> n in names;
        assert head.Some?;
        forall i | 0 <= i < |names| ensures r[i].extensionName == names[i] {
          if i > 0 { assert r[i] == Resolve(names[1..], declared)[i - 1]; }
        }
      }
      forall e | e in r ensures e in declared && e.extensionName in names {
        if head.Some? && e == head.value {
        } else {
          assert e in Resolve(names[1..], declared);
        }
      }
    }
  }

  /** The extensions a configuration item includes: its `;`-separated Extensions metadata,
      resolved; none when the metadata is absent. */
  function IncludedExtensions(metadata: Properties, declared: seq<D.RazorExtension>): seq<D.RazorExtension>
  {
    if Extensions in metadata then Resolve(SplitEntries(metadata[Extensions]), declared) else []
  }

  /** One configuration per item with a non-blank key, in order, all at the given version. */
  function ConfigurationsOf(env: Environment, version: D.LanguageVersion, items: seq<Item>,
                            declared: seq<D.RazorExtension>): (r: seq<D.RazorConfiguration>)
    ensures |r| <= |items|
    ensures forall c :: c in r ==>
      c.ProjectSystemRazorConfiguration? && c.languageVersion == version && !Blank(env, c.configurationName) &&
      c.configurationName in Keys(items)
    ensures forall k :: 0 <= k < |items| && !Blank(env, items[k].key) ==>
      D.ProjectSystemRazorConfiguration(version, items[k].key, IncludedExtensions(items[k].metadata, declared)) in r
  {
    if items == [] then []
    else
      var prior := ConfigurationsOf(env, version, items[..|items| - 1], declared);
      var last := items[|items| - 1];
      assert Keys(items[..|items| - 1]) == Keys(items)[..|items| - 1];
      if Blank(env, last.key) then prior
      else prior + [D.ProjectSystemRazorConfiguration(version, last.key, IncludedExtensions(last.metadata, declared))]
  }

  /** GetConfigurations: nothing unless both the extension and the configuration rule are present. */
  function Configurations(env: Environment, update: SubscriptionUpdate, version: D.LanguageVersion)
    : seq<D.RazorConfiguration>
  {
    if RazorExtension !in update.currentState || RazorConfiguration !in update.currentState then []
    else ConfigurationsOf(env, version, update.currentState[RazorConfiguration].items,
                          DeclaredExtensions(update.currentState[RazorExtension].items))
  }

  /** The configurations always carry the given version and a non-blank name of a
      configuration item; without both rules there are none. */
  lemma ConfigurationsShape(env: Environment, update: SubscriptionUpdate, version: D.LanguageVersion)
    ensures RazorExtension !in update.currentState || RazorConfiguration !in update.currentState ==>
      Configurations(env, update, version) == []
    ensures forall c :: c in Configurations(env, update, version) ==>
      c.ProjectSystemRazorConfiguration? && c.languageVersion == version && !Blank(env, c.configurationName) &&
      c.configurationName in Keys(update.currentState[RazorConfiguration].items)
  {
  }

  /** The Where/FirstOrDefault over the configurations: the first one with the given name. */
  function FirstConfiguration(configurations: seq<D.RazorConfiguration>, name: string): (r: Option<D.RazorConfiguration>)
    ensures r.Some? <==>
      exists k :: 0 <= k < |configurations| && configurations[k].ProjectSystemRazorConfiguration? &&
                  configurations[k].configurationName == name
    ensures r.Some? ==>
      exists k :: 0 <= k < |configurations| && configurations[k] == r.value &&
                  r.value.ProjectSystemRazorConfiguration? && r.value.configurationName == name &&
                  forall j :: 0 <= j < k ==> !(configurations[j].ProjectSystemRazorConfiguration? &&
                                                configurations[j].configurationName == name)
  {
    if configurations == [] then None
    else if configurations[0].ProjectSystemRazorConfiguration? && configurations[0].configurationName == name then
      Some(configurations[0])
    else
      FirstConfiguration(configurations[1..], name)
  }

  /** The configuration OnProjectChanged settles on, when there is one. */
  function SelectedConfiguration(env: Environment, update: SubscriptionUpdate): Option<D.RazorConfiguration>
  {
    var version := TryGetLanguageVersion(env, update);
    var name := TryGetDefaultConfigurationName(env, update);
    if version.Some? && name.Some? then FirstConfiguration(Configurations(env, update, version.value), name.value)
    else None
  }

  /** A configuration is chosen exactly when the version and the default name are found and a
      configuration has that name; it is then the first such, at that version. */
  lemma SelectedConfigurationIsDefault(env: Environment, update: SubscriptionUpdate)
    ensures var r := SelectedConfiguration(env, update);
      var version := TryGetLanguageVersion(env, update);
      var name := TryGetDefaultConfigurationName(env, update);
      (r.Some? <==> version.Some? && name.Some? &&
                    exists c :: c in Configurations(env, update, version.value) &&
                                c.ProjectSystemRazorConfiguration? && c.configurationName == name.value) &&
      (r.Some? ==> r.value.ProjectSystemRazorConfiguration? && r.value.configurationName == name.value &&
                   r.value.languageVersion == version.value && !Blank(env, r.value.configurationName))
  {
    var version := TryGetLanguageVersion(env, update);
    var name := TryGetDefaultConfigurationName(env, update);
    if version.Some? && name.Some? {
      var configurations := Configurations(env, update, version.value);
      ConfigurationsShape(env, update, version.value);
      var r := FirstConfiguration(configurations, name.value);
      if r.Some? {
        var k :| 0 <= k < |configurations| && configurations[k] == r.value &&
                 r.value.ProjectSystemRazorConfiguration? && r.value.configurationName == name.value &&
                 forall j :: 0 <= j < k ==> !(configurations[j].ProjectSystemRazorConfiguration? &&
                                               configurations[j].configurationName == name.value);
        assert configurations[k] in configurations;
      } else {
        forall c | c in configurations
          ensures !(c.ProjectSystemRazorConfiguration? && c.configurationName == name.value)
        {
          var k :| 0 <= k < |configurations| && configurations[k] == c;
        }
      }
    }
  }

  /** The item's target path, when it has a non-blank one and a non-blank key. */
  predicate IsDocumentItem(env: Environment, key: string, metadata: Properties)
  {
    TargetPath in metadata && !Blank(env, key) && !Blank(env, metadata[TargetPath])
  }

  /** The document an item stands for: the rooted key and the target path. */
  function DocumentOf(env: Environment, key: string, metadata: Properties): HostDocument
    requires TargetPath in metadata
  {
    HostDocument(env.makeRooted(key), metadata[TargetPath])
  }

  /** One document per item with a non-blank key and target path, in order. */
  function DocumentsOf(env: Environment, items: seq<Item>): (r: seq<HostDocument>)
    ensures |r| <= |items|
    ensures forall d :: d in r ==>
      !Blank(env, d.targetPath) &&
      exists k :: 0 <= k < |items| && IsDocumentItem(env, items[k].key, items[k].metadata) &&
                  d == DocumentOf(env, items[k].key, items[k].metadata)
    ensures forall k :: 0 <= k < |items| && IsDocumentItem(env, items[k].key, items[k].metadata) ==>
      DocumentOf(env, items[k].key, items[k].metadata) in r
  {
    if items == [] then []
    else
      var prior := DocumentsOf(env, items[..|items| - 1]);
      var last := items[|items| - 1];
      if IsDocumentItem(env, last.key, last.metadata) then prior + [DocumentOf(env, last.key, last.metadata)] else prior
  }

  /** GetCurrentDocuments: the documents of the target-path rule, none when it is absent. */
  function CurrentDocuments(env: Environment, update: SubscriptionUpdate): seq<HostDocument>
  {
    if RazorGenerateWithTargetPath in update.currentState then
      DocumentsOf(env, update.currentState[RazorGenerateWithTargetPath].items)
    else []
  }

  /** Dictionary lookup of an item's metadata by key. */
  function LookupItem(items: seq<Item>, key: string): (r: Option<Properties>)
    ensures r.Some? <==> key in Keys(items)
  {
    if items == [] then None
    else if items[0].key == key then Some(items[0].metadata)
    else
      assert Keys(items) == [items[0].key] + Keys(items[1..]);
      LookupItem(items[1..], key)
  }

  /** One document per key whose item existed before and had a non-blank key and target path. */
  function BeforeDocuments(env: Environment, keys: seq<string>, before: seq<Item>): (r: seq<HostDocument>)
    ensures |r| <= |keys|
    ensures forall d :: d in r ==>
      !Blank(env, d.targetPath) &&
      exists k :: 0 <= k < |keys| && !Blank(env, keys[k]) && LookupItem(before, keys[k]).Some? &&
                  IsDocumentItem(env, keys[k], LookupItem(before, keys[k]).value) &&
                  d == DocumentOf(env, keys[k], LookupItem(before, keys[k]).value)
    ensures forall k :: 0 <= k < |keys| && LookupItem(before, keys[k]).Some? &&
                        IsDocumentItem(env, keys[k], LookupItem(before, keys[k]).value) ==>
      DocumentOf(env, keys[k], LookupItem(before, keys[k]).value) in r
  {
    if keys == [] then []
    else
      var prior := BeforeDocuments(env, keys[..|keys| - 1], before);
      var key := keys[|keys| - 1];
      var metadata := LookupItem(before, key);
      if metadata.Some? && IsDocumentItem(env, key, metadata.value) then prior + [DocumentOf(env, key, metadata.value)]
      else prior
  }

  /** GetChangedAndRemovedDocuments: the removed and then the changed keys of the target-path
      rule, read from the rule as it was before; none when the rule did not change. */
  function ChangedAndRemovedDocuments(env: Environment, update: SubscriptionUpdate): seq<HostDocument>
  {
    if RazorGenerateWithTargetPath in update.projectChanges then
      var change := update.projectChanges[RazorGenerateWithTargetPath];
      BeforeDocuments(env, change.difference.removedItems + change.difference.changedItems, change.before.items)
    else []
  }

  /** What the host asks of the project manager, in order: the *Unsafe calls of the base
      class, which the modelled code does not define. */
  datatype HostAction =
    | UninitializeProject
    | UpdateProject(project: D.HostProject)
    | RemoveDocument(document: HostDocument)
    | AddDocument(document: HostDocument)

  function Removals(documents: seq<HostDocument>): (r: seq<HostAction>)
    ensures |r| == |documents| && forall k :: 0 <= k < |documents| ==> r[k] == RemoveDocument(documents[k])
  {
    seq(|documents|, k requires 0 <= k < |documents| => RemoveDocument(documents[k]))
  }

  function Additions(documents: seq<HostDocument>): (r: seq<HostAction>)
    ensures |r| == |documents| && forall k :: 0 <= k < |documents| ==> r[k] == AddDocument(documents[k])
  {
    seq(|documents|, k requires 0 <= k < |documents| => AddDocument(documents[k]))
  }

  /** The actions of one OnProjectChanged that runs: uninitialize without a configuration,
      otherwise update, remove each changed or removed document, add each current one. */
  function Plan(env: Environment, update: SubscriptionUpdate): seq<HostAction>
  {
    var configuration := SelectedConfiguration(env, update);
    if configuration.None? then [UninitializeProject]
    else
      [UpdateProject(env.newHostProject(env.projectPath, configuration.value))] +
      Removals(ChangedAndRemovedDocuments(env, update)) + Additions(CurrentDocuments(env, update))
  }

  /** The order the host promises for an update: the project update first and only there,
      then the removals in order, then the additions in order. */
  predicate UpdateOrdered(p: seq<HostAction>, project: D.HostProject, changed: seq<HostDocument>,
                          current: seq<HostDocument>)
  {
    |p| == 1 + |changed| + |current| && p[0] == UpdateProject(project) &&
    (forall k :: 0 <= k < |changed| ==> p[1 + k] == RemoveDocument(changed[k])) &&
    (forall k :: 0 <= k < |current| ==> p[1 + |changed| + k] == AddDocument(current[k])) &&
    (forall i, j :: 0 <= i < |p| && 0 <= j < |p| && p[i].RemoveDocument? && p[j].AddDocument? ==> i < j) &&
    (forall i :: 1 <= i < |p| ==> !p[i].UpdateProject? && !p[i].UninitializeProject?)
  }

  lemma UpdateOrder(project: D.HostProject, changed: seq<HostDocument>, current: seq<HostDocument>)
    ensures UpdateOrdered([UpdateProject(project)] + Removals(changed) + Additions(current), project, changed, current)
  {
    var p := [UpdateProject(project)] + Removals(changed) + Additions(current);
    forall i | 1 <= i < |p|
      ensures i <= |changed| ==> p[i] == RemoveDocument(changed[i - 1])
      ensures i > |changed| ==> p[i] == AddDocument(current[i - 1 - |changed|])
    {
    }
  }

  /** Without a usable configuration the project is only uninitialized; with one, it is
      updated first, every removal precedes every addition, and each list keeps its order. */
  lemma PlanOrder(env: Environment, update: SubscriptionUpdate)
    ensures SelectedConfiguration(env, update).None? <==> Plan(env, update) == [UninitializeProject]
    ensures SelectedConfiguration(env, update).Some? ==>
      UpdateOrdered(Plan(env, update), env.newHostProject(env.projectPath, SelectedConfiguration(env, update).value),
                    ChangedAndRemovedDocuments(env, update), CurrentDocuments(env, update))
  {
    var configuration := SelectedConfiguration(env, update);
    if configuration.Some? {
      var project := env.newHostProject(env.projectPath, configuration.value);
      var changed := ChangedAndRemovedDocuments(env, update);
      var current := CurrentDocuments(env, update);
      assert Plan(env, update) == [UpdateProject(project)] + Removals(changed) + Additions(current);
      UpdateOrder(project, changed, current);
    }
  }

  /** The extension loop of GetConfigurations. */
  method GetDeclaredExtensions(items: seq<Item>) returns (extensions: seq<D.RazorExtension>)
    ensures extensions == DeclaredExtensions(items)
  {
    extensions := [];
    for i := 0 to |items|
      invariant extensions == DeclaredExtensions(items[..i])
    {
      assert items[..i + 1][..i] == items[..i];
      if items[i].key != "" {
        extensions := extensions + [D.RazorExtension(items[i].key)];
      }
    }
    assert items[..|items|] == items;
  }

  /** GetConfigurations: the declared extensions, then one configuration per configuration
      item with a non-blank name. */
  method GetConfigurations(env: Environment, update: SubscriptionUpdate, version: D.LanguageVersion)
    returns (configurations: seq<D.RazorConfiguration>)
    ensures configurations == Configurations(env, update, version)
  {
    if RazorExtension !in update.currentState || RazorConfiguration !in update.currentState {
      return [];
    }
    var extensions := GetDeclaredExtensions(update.currentState[RazorExtension].items);
    var items := update.currentState[RazorConfiguration].items;
    configurations := [];
    for i := 0 to |items|
      invariant configurations == ConfigurationsOf(env, version, items[..i], extensions)
    {
      assert items[..i + 1][..i] == items[..i];
      var configurationName := items[i].key;
      if Blank(env, configurationName) {
        continue;
      }
      var includedExtensions := IncludedExtensions(items[i].metadata, extensions);
      configurations := configurations +
        [D.ProjectSystemRazorConfiguration(version, configurationName, includedExtensions)];
    }
    assert items[..|items|] == items;
  }

  method GetCurrentDocuments(env: Environment, update: SubscriptionUpdate) returns (documents: seq<HostDocument>)
    ensures documents == CurrentDocuments(env, update)
  {
    if RazorGenerateWithTargetPath !in update.currentState {
      return [];
    }
    var items := update.currentState[RazorGenerateWithTargetPath].items;
    documents := [];
    for i := 0 to |items|
      invariant documents == DocumentsOf(env, items[..i])
    {
      assert items[..i + 1][..i] == items[..i];
      if IsDocumentItem(env, items[i].key, items[i].metadata) {
        documents := documents + [HostDocument(env.makeRooted(items[i].key), items[i].metadata[TargetPath])];
      }
    }
    assert items[..|items|] == items;
  }

  method GetChangedAndRemovedDocuments(env: Environment, update: SubscriptionUpdate)
    returns (documents: seq<HostDocument>)
    ensures documents == ChangedAndRemovedDocuments(env, update)
  {
    if RazorGenerateWithTargetPath !in update.projectChanges {
      return [];
    }
    var rule := update.projectChanges[RazorGenerateWithTargetPath];
    var keys := rule.difference.removedItems + rule.difference.changedItems;
    documents := [];
    for i := 0 to |keys|
      invariant documents == BeforeDocuments(env, keys[..i], rule.before.items)
    {
      assert keys[..i + 1][..i] == keys[..i];
      var value := LookupItem(rule.before.items, keys[i]);
      if value.Some? {
        if IsDocumentItem(env, keys[i], value.value) {
          documents := documents + [HostDocument(env.makeRooted(keys[i]), value.value[TargetPath])];
        }
      }
    }
    assert keys[..|keys|] == keys;
  }

  /** The start of OnProjectChanged: the default configuration, looked up only when the
      language version and the default name are both found. */
  method ChooseConfiguration(env: Environment, update: SubscriptionUpdate) returns (configuration: Option<D.RazorConfiguration>)
    ensures configuration == SelectedConfiguration(env, update)
  {
    configuration := None;
    var languageVersion := TryGetLanguageVersion(env, update);
    if languageVersion.Some? {
      var defaultConfiguration := TryGetDefaultConfigurationName(env, update);
      if defaultConfiguration.Some? {
        var configurations := GetConfigurations(env, update, languageVersion.value);
        configuration := FirstConfiguration(configurations, defaultConfiguration.value);
      }
    }
  }

  lemma AppendActions(a: seq<HostAction>, b: seq<HostAction>, c: seq<HostAction>, d: seq<HostAction>)
    ensures a + b + c + d == a + (b + c + d)
  {
  }

  /** The host's view of one project: whether it is being disposed, and the requests it has
      made of the project manager. */
  class RazorProjectHost {
    const env: Environment
    var isDisposing: bool
    var isDisposed: bool
    var actions: seq<HostAction>

    constructor (env: Environment)
      ensures this.env == env && !isDisposing && !isDisposed && actions == []
    {
      this.env := env;
      isDisposing := false;
      isDisposed := false;
      actions := [];
    }

    /** OnProjectChanged, run as one step under the host's lock. */
    method OnProjectChanged(update: SubscriptionUpdate)
      modifies this
      ensures isDisposing == old(isDisposing) && isDisposed == old(isDisposed)
      ensures actions == old(actions) + (if old(isDisposing) || old(isDisposed) then [] else Plan(env, update))
    {
      if isDisposing || isDisposed {
        return;
      }
      var configuration := ChooseConfiguration(env, update);
      if configuration.None? {
        actions := actions + [UninitializeProject];
        return;
      }
      var documents := GetCurrentDocuments(env, update);
      var changedDocuments := GetChangedAndRemovedDocuments(env, update);
      var hostProject := env.newHostProject(env.projectPath, configuration.value);
      actions := actions + [UpdateProject(hostProject)];
      RequestRemovals(changedDocuments);
      RequestAdditions(documents);
      assert Plan(env, update) == [UpdateProject(hostProject)] + Removals(changedDocuments) + Additions(documents);
      AppendActions(old(actions), [UpdateProject(hostProject)], Removals(changedDocuments), Additions(documents));
    }

    /** The loop of RemoveDocumentUnsafe calls. */
    method RequestRemovals(documents: seq<HostDocument>)
      modifies this
      ensures isDisposing == old(isDisposing) && isDisposed == old(isDisposed)
      ensures actions == old(actions) + Removals(documents)
    {
      for i := 0 to |documents|
        invariant isDisposing == old(isDisposing) && isDisposed == old(isDisposed)
        invariant actions == old(actions) + Removals(documents[..i])
      {
        assert Removals(documents[..i + 1]) == Removals(documents[..i]) + [RemoveDocument(documents[i])];
        actions := actions + [RemoveDocument(documents[i])];
      }
      assert documents[..|documents|] == documents;
    }

    /** The loop of AddDocumentUnsafe calls. */
    method RequestAdditions(documents: seq<HostDocument>)
      modifies this
      ensures isDisposing == old(isDisposing) && isDisposed == old(isDisposed)
      ensures actions == old(actions) + Additions(documents)
    {
      for i := 0 to |documents|
        invariant isDisposing == old(isDisposing) && isDisposed == old(isDisposed)
        invariant actions == old(actions) + Additions(documents[..i])
      {
        assert Additions(documents[..i + 1]) == Additions(documents[..i]) + [AddDocument(documents[i])];
        actions := actions + [AddDocument(documents[i])];
      }
      assert documents[..|documents|] == documents;
    }
  }
}
