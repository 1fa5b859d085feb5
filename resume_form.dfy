/** ResumeForm: the editing form's own state. The form sections can be
    reordered by dragging one onto another and collapsed one at a time; a
    field edit reports the form data with one key replaced. */
module ResumeForm {
  import opened ResumeTypes
  import opened Seqs

  /** The order the form sections start in. */
  const InitialOrder: seq<string> := ["personal", "education", "employment", "skills"]

  /** `{ ...formData, [name]: value }`: the form data with one key set. */
  function WithField(form: map<string, string>, name: string, value: string): (r: map<string, string>)
    ensures r.Keys == form.Keys + {name}
    ensures r[name] == value
    ensures forall k :: k in form && k != name ==> r[k] == form[k]
  {
    form[name := value]
  }

  /** Editing a field twice keeps only the second value; edits to different
      fields can be made in either order. */
  lemma WithFieldEdits(form: map<string, string>, a: string, b: string, x: string, y: string)
    ensures WithField(WithField(form, a, x), a, y) == WithField(form, a, y)
    ensures a != b ==> WithField(WithField(form, a, x), b, y) == WithField(WithField(form, b, y), a, x)
  {
  }

  /** `toggleSection`: the collapsed set with `id`'s membership flipped. */
  function Toggled(collapsed: set<string>, id: string): (r: set<string>)
    ensures id in r <==> id !in collapsed
    ensures forall x :: x != id ==> (x in r <==> x in collapsed)
  {
    if id in collapsed then collapsed - {id} else collapsed + {id}
  }

  /** Toggling the same section twice restores the collapsed set. */
  lemma ToggleTwice(collapsed: set<string>, id: string)
    ensures Toggled(Toggled(collapsed, id), id) == collapsed
  {
  }

  /** `s.indexOf(x)`: the first index holding `x`, or -1. */
  function IndexOf(s: seq<string>, x: string): (i: int)
    ensures -1 <= i < |s|
    ensures i == -1 <==> x !in s
    ensures i >= 0 ==> s[i] == x && forall j :: 0 <= j < i ==> s[j] != x
  {
    if s == [] then -1
    else if s[0] == x then 0
    else
      var i := IndexOf(s[1..], x);
      if i == -1 then -1 else i + 1
  }

  /** The drag reorder: take the element at `from` out, then insert it so
      that it sits at `to`, an index of the original order. */
  function Move(order: seq<string>, from: nat, to: nat): seq<string>
    requires from < |order| && to < |order|
  {
    InsertAt(RemoveAt(order, from), to, order[from])
  }

  /** The moved section lands at the target's original index, nothing is
      lost or duplicated, and the other sections keep their relative order. */
  lemma MoveSpec(order: seq<string>, from: nat, to: nat)
    requires from < |order| && to < |order|
    ensures |Move(order, from, to)| == |order|
    ensures Move(order, from, to)[to] == order[from]
    ensures multiset(Move(order, from, to)) == multiset(order)
    ensures RemoveAt(Move(order, from, to), to) == RemoveAt(order, from)
  {
    var rest := RemoveAt(order, from);
    RemoveInsertedAt(rest, to, order[from]);
  }

  /** The form's drag and collapse state. */
  class FormState {
    var sectionOrder: seq<string>
    var collapsedSections: set<string>
    var draggedItem: Option<string>
    /** The sections the form was created with. */
    ghost const sections: multiset<string>

    /** The order is always a rearrangement of the initial sections, and a
      drag in progress is of one of them. */
    ghost predicate Valid()
      reads this
    {
      multiset(sectionOrder) == sections
      && (draggedItem.Some? ==> draggedItem.value in sectionOrder)
    }

    constructor()
      ensures Valid() && sections == multiset(InitialOrder)
      ensures sectionOrder == InitialOrder && collapsedSections == {} && draggedItem == None
    {
      sections := multiset(InitialOrder);
      sectionOrder := InitialOrder;
      collapsedSections := {};
      draggedItem := None;
    }

    method ToggleSection(sectionId: string)
      requires Valid()
      modifies this
      ensures Valid()
      ensures collapsedSections == Toggled(old(collapsedSections), sectionId)
      ensures sectionOrder == old(sectionOrder) && draggedItem == old(draggedItem)
    {
      collapsedSections := Toggled(collapsedSections, sectionId);
    }

    /** Drag events come only from the rendered sections. */
    method DragStart(sectionId: string)
      requires Valid() && sectionId in sectionOrder
      modifies this
      ensures Valid()
      ensures draggedItem == Some(sectionId)
      ensures sectionOrder == old(sectionOrder) && collapsedSections == old(collapsedSections)
    {
      draggedItem := Some(sectionId);
    }

    /** `handleDragOver`: with a drag in progress over another section, the
      dragged section moves to the target's index; otherwise nothing changes. */
    method DragOver(targetSectionId: string)
      requires Valid() && targetSectionId in sectionOrder
      modifies this
      ensures Valid()
      ensures old(draggedItem).Some? && old(draggedItem).value != targetSectionId ==>
        sectionOrder == Move(old(sectionOrder), IndexOf(old(sectionOrder), old(draggedItem).value),
                             IndexOf(old(sectionOrder), targetSectionId))
      ensures old(draggedItem).None? || old(draggedItem).value == targetSectionId ==>
        sectionOrder == old(sectionOrder)
      ensures draggedItem == old(draggedItem) && collapsedSections == old(collapsedSections)
    {
      if draggedItem.Some? && draggedItem.value != targetSectionId {
        var dragged := draggedItem.value;
        var draggedIndex := IndexOf(sectionOrder, dragged);
        var targetIndex := IndexOf(sectionOrder, targetSectionId);
        MoveSpec(sectionOrder, draggedIndex, targetIndex);
        var newOrder := RemoveAt(sectionOrder, draggedIndex);
        newOrder := InsertAt(newOrder, targetIndex, dragged);
        assert newOrder == Move(sectionOrder, draggedIndex, targetIndex);
        assert newOrder[targetIndex] == dragged;
        sectionOrder := newOrder;
      }
    }

    method DragEnd()
      requires Valid()
      modifies this
      ensures Valid()
      ensures draggedItem == None
      ensures sectionOrder == old(sectionOrder) && collapsedSections == old(collapsedSections)
    {
      draggedItem := None;
    }
  }
}
