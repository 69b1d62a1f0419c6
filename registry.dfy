/** The template registry (app/templates/registry.ts): a constant table from
    template id to a loader of its component, in declaration order. */
module Registry {
  import opened Common

  /** The components the loaders deliver. */
  datatype Component = ClassicProPlumber | ModernBluePlumber

  datatype Entry = Entry(templateId: string, component: Component)

  /** `TEMPLATE_REGISTRY`, in declaration order. */
  const TemplateRegistry: seq<Entry> := [
    Entry("classic-pro-plumber", ClassicProPlumber),
    Entry("modern-blue-plumber", ModernBluePlumber)
  ]

  /** The component registered under `templateId` in `entries`. */
  function Lookup(entries: seq<Entry>, templateId: string): (r: Option<Component>)
    ensures r.None? <==> forall i :: 0 <= i < |entries| ==> entries[i].templateId != templateId
    ensures r.Some? ==> Entry(templateId, r.value) in entries
  {
    if entries == [] then None
    else if entries[0].templateId == templateId then Some(entries[0].component)
    else
      var r := Lookup(entries[1..], templateId);
      assert forall i :: 0 < i < |entries| ==> entries[i] == entries[1..][i - 1];
      r
  }

  /** `isTemplateRegistered` (own keys only). */
  predicate IsTemplateRegistered(templateId: string) {
    exists i :: 0 <= i < |TemplateRegistry| && TemplateRegistry[i].templateId == templateId
  }

  /** The ids of `entries`, in order. */
  function Ids(entries: seq<Entry>): (r: seq<string>)
    ensures |r| == |entries|
    ensures forall i :: 0 <= i < |entries| ==> r[i] == entries[i].templateId
  {
    if entries == [] then [] else [entries[0].templateId] + Ids(entries[1..])
  }

  /** `getRegisteredTemplates`: `Object.keys` keeps declaration order. */
  function GetRegisteredTemplates(): (r: seq<string>)
    ensures r == ["classic-pro-plumber", "modern-blue-plumber"]
  {
    Ids(TemplateRegistry)
  }

  /** The registration test agrees with the listed ids. */
  lemma RegisteredIffListed(templateId: string)
    ensures IsTemplateRegistered(templateId) <==> templateId in GetRegisteredTemplates()
  {
    var ids := GetRegisteredTemplates();
    if templateId in ids {
      var i :| 0 <= i < |ids| && ids[i] == templateId;
      assert TemplateRegistry[i].templateId == templateId;
    }
  }

  /** What `getTemplateComponent` did: the component or `null`, and whether
      a loader was invoked. */
  datatype Loaded = Loaded(component: Option<Component>, importerInvoked: bool)

  /** `getTemplateComponent(templateId)`; `importFails` says whether the
      dynamic import rejects. */
  function GetTemplateComponent(templateId: string, importFails: bool): (r: Loaded)
    ensures !IsTemplateRegistered(templateId) ==> r == Loaded(None, false)
    ensures IsTemplateRegistered(templateId) ==> r.importerInvoked
    ensures importFails ==> r.component.None?
    ensures r.component.Some? ==> Entry(templateId, r.component.value) in TemplateRegistry
  {
    match Lookup(TemplateRegistry, templateId)
    case None => Loaded(None, false)
    case Some(component) =>
      if importFails then Loaded(None, true) else Loaded(Some(component), true)
  }

  /** Each registered id loads its own component. */
  lemma RegisteredComponents()
    ensures GetTemplateComponent("classic-pro-plumber", false) == Loaded(Some(ClassicProPlumber), true)
    ensures GetTemplateComponent("modern-blue-plumber", false) == Loaded(Some(ModernBluePlumber), true)
  {
    assert TemplateRegistry[0].templateId == "classic-pro-plumber";
    assert TemplateRegistry[1].templateId == "modern-blue-plumber";
    assert "classic-pro-plumber" != "modern-blue-plumber" by {
      assert "classic-pro-plumber"[0] != "modern-blue-plumber"[0];
    }
  }

  /** A load succeeds exactly for a registered id whose import works. */
  lemma LoadSucceedsIff(templateId: string, importFails: bool)
    ensures GetTemplateComponent(templateId, importFails).component.Some?
            <==> IsTemplateRegistered(templateId) && !importFails
  {
  }
}
