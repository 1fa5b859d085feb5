/** TemplateRegistry: the five resume templates, in the order the template
    pickers list them, and lookup by id. */
module TemplateRegistry {
  import opened ResumeTypes
  import opened Rendering
  import ClassicTemplate
  import ModernTemplate
  import ExecutiveTemplate
  import CreativeTemplate
  import SoftwareDeveloperTemplate

  /** The React component a registry entry points at. */
  datatype Component = Classic | Modern | Executive | Creative | SoftwareDeveloper

  datatype Template = Template(id: string, name: string, component: Component)

  const Templates: seq<Template> := [
    Template("classic", "Classic", Classic),
    Template("modern", "Modern", Modern),
    Template("executive", "Executive", Executive),
    Template("creative", "Creative", Creative),
    Template("software-developer", "Software Developer", SoftwareDeveloper)
  ]

  /** The registered ids, in registry order. */
  const Ids: seq<string> := ["classic", "modern", "executive", "creative", "software-developer"]

  /** `ts.find(t => t.id === id)`: the first entry with that id, if any. */
  function Find(ts: seq<Template>, id: string): (r: Option<Template>)
    ensures r.Some? ==> r.value in ts && r.value.id == id
    ensures r.None? <==> forall i :: 0 <= i < |ts| ==> ts[i].id != id
    ensures r.Some? ==> exists i :: 0 <= i < |ts| && ts[i] == r.value && forall j :: 0 <= j < i ==> ts[j].id != id
  {
    if ts == [] then None
    else if ts[0].id == id then Some(ts[0])
    else
      var r := Find(ts[1..], id);
      assert forall j :: 1 <= j < |ts| ==> ts[j] == ts[1..][j - 1];
      if r.Some? then
        var i :| 0 <= i < |ts[1..]| && ts[1..][i] == r.value && forall j :: 0 <= j < i ==> ts[1..][j].id != id;
        assert ts[i + 1] == r.value;
        r
      else r
  }

  /** `getTemplateById`: the registry entry with that id, or nothing. */
  function GetTemplateById(id: string): (r: Option<Template>)
    ensures r.Some? ==> r.value in Templates && r.value.id == id
  {
    Find(Templates, id)
  }

  /** The registry lists exactly the five ids, in order, each once. */
  lemma RegistryShape()
    ensures |Templates| == 5
    ensures forall i :: 0 <= i < |Templates| ==> Templates[i].id == Ids[i]
    ensures forall i, j :: 0 <= i < j < |Templates| ==> Templates[i].id != Templates[j].id
  {
  }

  /** Lookup succeeds exactly for the five registered ids, and then returns
      the entry at that id's position. */
  lemma GetTemplateByIdSpec(id: string)
    ensures GetTemplateById(id).Some? <==> id in Ids
    ensures forall i :: 0 <= i < |Ids| && Ids[i] == id ==> GetTemplateById(id) == Some(Templates[i])
  {
    RegistryShape();
    var r := GetTemplateById(id);
    if r.Some? {
      var i :| 0 <= i < |Templates| && Templates[i] == r.value && forall j :: 0 <= j < i ==> Templates[j].id != id;
      assert Ids[i] == id;
    } else {
      assert forall i :: 0 <= i < |Ids| ==> Ids[i] != id;
    }
  }

  /** `<template.component data={d} fontFamily={font} />`. The Modern template
      takes no font, so the font passed to it is dropped. */
  function RenderComponent(c: Component, d: ResumeData, fontFamily: Option<string>): Page {
    match c
    case Classic => ClassicTemplate.Render(d, fontFamily)
    case Modern => ModernTemplate.Render(d)
    case Executive => ExecutiveTemplate.Render(d, fontFamily)
    case Creative => CreativeTemplate.Render(d, fontFamily)
    case SoftwareDeveloper => SoftwareDeveloperTemplate.Render(d, fontFamily)
  }
}
