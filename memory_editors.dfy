/** The memory editors of the front end: the review dialog that lists
    extracted memories with a selection (frontend/components/MemoryReview.tsx),
    the tag editor of a generation (frontend/components/TagEditor.tsx) and the
    memory form with its connections and parent (components/MemoryForm.tsx).
    Each React component is a class whose fields are its state; each handler
    is a method that sets the state the way the component's setters do. */
module MemoryEditors {
  import opened Wrappers
  import opened Strings

  /** `MemoryFormData` (lib/types.ts). The document reference fields are
      carried through unchanged by every editor and are left out. */
  datatype MemoryFormData = MemoryFormData(
    concept: string,
    data: string,
    salience: real,
    connections: seq<string>,
    memoryType: string,
    priority: real,
    category: string,
    parentId: Option<string>,
    level: int)

  // ---------------------------------------------------------------------
  // Lists by index

  /** `xs.filter((_, i) => i !== d)`. */
  function RemoveAt<T>(xs: seq<T>, d: nat): (r: seq<T>)
    ensures d < |xs| ==> |r| == |xs| - 1
    ensures d >= |xs| ==> r == xs
    ensures forall i :: 0 <= i < |r| ==> r[i] == (if i < d then xs[i] else xs[i + 1])
  {
    if d < |xs| then xs[..d] + xs[d + 1..] else xs
  }

  /** `xs.filter((_, i) => s.has(i))`: the elements at the chosen indices, in
      list order. */
  function Picked<T>(xs: seq<T>, s: set<nat>): (r: seq<T>)
    ensures |r| <= |xs|
  {
    if xs == [] then []
    else Picked(xs[..|xs| - 1], s) + (if |xs| - 1 in s then [xs[|xs| - 1]] else [])
  }

  /** Every index below `n`. */
  function AllIndices(n: nat): (r: set<nat>)
    ensures forall i: nat :: i in r <==> i < n
  {
    if n == 0 then {} else AllIndices(n - 1) + {n - 1}
  }

  /** The selection after deleting index `d`: indices below `d` stay, the
      ones above move down by one, `d` itself goes. */
  function Shifted(s: set<nat>, d: nat): set<nat>
  {
    (set i | i in s && i < d) + (set i | i in s && i > d :: i - 1)
  }

  /** An index is selected after the deletion exactly when it was selected
      below `d`, or its successor was selected at or above `d`. */
  lemma {:induction false} ShiftedMembers(s: set<nat>, d: nat)
    ensures forall j: nat :: j in Shifted(s, d) <==> (j < d && j in s) || (j >= d && j + 1 in s)
  {
    var below := set i | i in s && i < d;
    var above := set i | i in s && i > d :: i - 1;
    assert Shifted(s, d) == below + above;
    forall j: nat
      ensures j in Shifted(s, d) <==> (j < d && j in s) || (j >= d && j + 1 in s)
    {
      if j >= d && j + 1 in s {
        var i: nat := j + 1;
        assert i in s && i > d && j == i - 1;
        assert j in above;
      }
      if j in above {
        var i :| i in s && i > d && j == i - 1;
        assert j + 1 == i;
      }
    }
  }

  /** `Picked` only looks at the indices of the list. */
  lemma {:induction false} PickedBelow<T>(xs: seq<T>, s: set<nat>, t: set<nat>)
    requires forall i :: i < |xs| ==> (i in s <==> i in t)
    ensures Picked(xs, s) == Picked(xs, t)
    decreases |xs|
  {
    if xs != [] {
      PickedBelow(xs[..|xs| - 1], s, t);
    }
  }

  /** Choosing every index picks the whole list; choosing none picks
      nothing. */
  lemma {:induction false} PickedAll<T>(xs: seq<T>)
    ensures Picked(xs, AllIndices(|xs|)) == xs
    ensures Picked(xs, {}) == []
    decreases |xs|
  {
    if xs != [] {
      var p := xs[..|xs| - 1];
      PickedAll(p);
      PickedBelow(p, AllIndices(|xs|), AllIndices(|p|));
      assert p + [xs[|xs| - 1]] == xs;
    }
  }

  /** Deleting an element and shifting the selection keeps every other
      selected element selected: the dialog saves the same memories it
      would have saved with that one unselected. */
  lemma {:induction false} DeleteKeepsSelection<T>(xs: seq<T>, s: set<nat>, d: nat)
    requires d < |xs|
    ensures Picked(RemoveAt(xs, d), Shifted(s, d)) == Picked(xs, s - {d})
    decreases |xs|
  {
    var n := |xs|;
    var p := xs[..n - 1];
    ShiftedMembers(s, d);
    if d == n - 1 {
      assert RemoveAt(xs, d) == p;
      PickedBelow(p, Shifted(s, d), s - {d});
    } else {
      assert RemoveAt(xs, d) == RemoveAt(p, d) + [xs[n - 1]];
      DeleteKeepsSelection(p, s, d);
      var q := RemoveAt(p, d);
      assert (RemoveAt(p, d) + [xs[n - 1]])[..|q|] == q;
      assert n - 2 in Shifted(s, d) <==> n - 1 in s;
    }
  }

  lemma {:induction false} AllIndicesSize(n: nat)
    ensures |AllIndices(n)| == n
  {
    if n > 0 {
      AllIndicesSize(n - 1);
    }
  }

  /** A selection of indices below `n` has `n` members exactly when every
      index is selected. */
  lemma {:induction false} FullSelection(s: set<nat>, n: nat)
    requires forall i :: i in s ==> i < n
    ensures |s| == n <==> s == AllIndices(n)
  {
    AllIndicesSize(n);
    var all := AllIndices(n);
    assert s <= all;
    if |s| == n {
      assert |all - s| == |all| - |s|;
      assert all - s == {};
      assert all == s;
    }
  }

  // ---------------------------------------------------------------------
  // MemoryReview.tsx

  /** A field assignment of `handleMemoryChange`. */
  datatype Change =
    | SetConcept(concept: string)
    | SetData(data: string)
    | SetSalience(salience: real)
    | SetConnections(connections: seq<string>)
    | SetMemoryType(memoryType: string)
    | SetPriority(priority: real)
    | SetCategory(category: string)
    | SetLevel(level: int)

  /** `{ ...m, [field]: value }`. */
  function Apply(m: MemoryFormData, c: Change): (r: MemoryFormData)
    ensures c.SetConcept? ==> r == m.(concept := c.concept)
    ensures c.SetData? ==> r == m.(data := c.data)
    ensures c.SetSalience? ==> r == m.(salience := c.salience)
    ensures c.SetConnections? ==> r == m.(connections := c.connections)
    ensures c.SetMemoryType? ==> r == m.(memoryType := c.memoryType)
    ensures c.SetPriority? ==> r == m.(priority := c.priority)
    ensures c.SetCategory? ==> r == m.(category := c.category)
    ensures c.SetLevel? ==> r == m.(level := c.level)
  {
    match c
    case SetConcept(v) => m.(concept := v)
    case SetData(v) => m.(data := v)
    case SetSalience(v) => m.(salience := v)
    case SetConnections(v) => m.(connections := v)
    case SetMemoryType(v) => m.(memoryType := v)
    case SetPriority(v) => m.(priority := v)
    case SetCategory(v) => m.(category := v)
    case SetLevel(v) => m.(level := v)
  }

  /** The review dialog. `memories` is the list it was opened with. */
  class MemoryReview {
    const memories: seq<MemoryFormData>
    var editing: Option<nat>
    var edited: seq<MemoryFormData>
    var selected: set<nat>

    /** Every selected index names a listed memory, and the list never
        grows beyond the one the dialog was opened with. */
    predicate Valid()
      reads this
    {
      |edited| <= |memories| && forall i :: i in selected ==> i < |edited|
    }

    /** Opening the dialog selects every memory. */
    constructor(memories: seq<MemoryFormData>)
      ensures this.memories == memories && edited == memories && editing.None?
      ensures selected == AllIndices(|memories|)
      ensures Valid()
    {
      this.memories := memories;
      editing := None;
      edited := memories;
      selected := AllIndices(|memories|);
    }

    method Edit(index: nat)
      modifies this
      ensures editing == Some(index) && edited == old(edited) && selected == old(selected)
    {
      editing := Some(index);
    }

    method SaveEdit()
      modifies this
      ensures editing.None? && edited == old(edited) && selected == old(selected)
    {
      editing := None;
    }

    /** Cancelling an edit restores the list the dialog was opened with and
        leaves the selection as it is. */
    method CancelEdit()
      requires Valid()
      modifies this
      ensures editing.None? && edited == memories && selected == old(selected)
      ensures Valid()
    {
      editing := None;
      edited := memories;
    }

    /** `handleMemoryChange` sets one field of one memory. */
    method ChangeMemory(index: nat, c: Change)
      requires Valid() && index < |edited|
      modifies this
      ensures edited == old(edited)[index := Apply(old(edited)[index], c)]
      ensures editing == old(editing) && selected == old(selected)
      ensures Valid()
    {
      edited := edited[index := Apply(edited[index], c)];
    }

    /** `handleToggleMemory` flips one index and no other. */
    method Toggle(index: nat)
      requires Valid() && index < |edited|
      modifies this
      ensures index in selected <==> index !in old(selected)
      ensures forall j :: j != index ==> (j in selected <==> j in old(selected))
      ensures edited == old(edited) && editing == old(editing)
      ensures Valid()
    {
      if index in selected {
        selected := selected - {index};
      } else {
        selected := selected + {index};
      }
    }

    /** `handleDeleteMemory` removes one memory and renumbers the selection. */
    method Delete(index: nat)
      requires Valid()
      modifies this
      ensures edited == RemoveAt(old(edited), index)
      ensures selected == Shifted(old(selected), index)
      ensures editing == old(editing)
      ensures Valid()
    {
      edited := RemoveAt(edited, index);
      selected := Shifted(selected, index);
    }

    /** `handleSaveSelected`: the selected memories in list order. */
    function Chosen(): (r: seq<MemoryFormData>)
      reads this
      ensures |r| <= |edited|
    {
      Picked(edited, selected)
    }

    /** `handleSelectAll`: clears a full selection, otherwise selects every
        listed memory. */
    method SelectAll()
      requires Valid()
      modifies this
      ensures old(selected) == AllIndices(|edited|) ==> selected == {}
      ensures old(selected) != AllIndices(|edited|) ==> selected == AllIndices(|edited|)
      ensures edited == old(edited) && editing == old(editing)
      ensures Valid()
    {
      FullSelection(selected, |edited|);
      if |selected| == |edited| {
        selected := {};
      } else {
        selected := AllIndices(|edited|);
      }
    }
  }

  /** Cancelling an edit after a deletion puts the deleted memory back but
      keeps the renumbered selection, so the selection now names different
      memories: with three memories all selected, deleting the first and
      cancelling an edit saves the first two instead of the last two. */
  lemma {:induction false} CancelAfterDelete<T>(xs: seq<T>)
    requires |xs| == 3
    ensures Picked(RemoveAt(xs, 0), Shifted(AllIndices(3), 0)) == xs[1..]
    ensures Picked(xs, Shifted(AllIndices(3), 0)) == xs[..2]
  {
    var s := Shifted(AllIndices(3), 0);
    ShiftedMembers(AllIndices(3), 0);
    assert 1 in AllIndices(3) && 2 in AllIndices(3);
    assert 0 in s && 1 in s && 2 !in s;
    PickedBelow(RemoveAt(xs, 0), s, AllIndices(2));
    PickedAll(RemoveAt(xs, 0));
    PickedBelow(xs[..2], s, AllIndices(2));
    PickedAll(xs[..2]);
    assert xs[..3][..2] == xs[..2];
  }

  // ---------------------------------------------------------------------
  // TagEditor.tsx and the connections of MemoryForm.tsx

  /** Whether `addTag(t)` takes the trimmed text: it is not empty and not
      already listed. */
  predicate Accepts(items: seq<string>, t: string)
  {
    Trim(t) != [] && Trim(t) !in items
  }

  /** The list after `addTag(t)`. */
  function Added(items: seq<string>, t: string): (r: seq<string>)
    ensures Accepts(items, t) ==> r == items + [Trim(t)]
    ensures !Accepts(items, t) ==> r == items
  {
    if Accepts(items, t) then items + [Trim(t)] else items
  }

  /** No blank entry and no entry twice. */
  predicate Clean(items: seq<string>)
  {
    (forall i :: 0 <= i < |items| ==> !IsBlank(items[i])) &&
    (forall i, j :: 0 <= i < j < |items| ==> items[i] != items[j])
  }

  /** Adding keeps a clean list clean, and the added entry is trimmed. */
  lemma {:induction false} AddedClean(items: seq<string>, t: string)
    requires Clean(items)
    ensures Clean(Added(items, t))
    ensures Accepts(items, t) ==> Trim(Last(Added(items, t))) == Last(Added(items, t))
  {
    TrimIdem(t);
  }

  /** `items.filter(x => x !== t)`. */
  function Without(items: seq<string>, t: string): (r: seq<string>)
    ensures t !in r
    ensures forall x :: x in items && x != t ==> x in r
    ensures forall x :: x in r ==> x in items
  {
    if items == [] then []
    else (if items[0] == t then [] else [items[0]]) + Without(items[1..], t)
  }

  /** Removing keeps a clean list clean, and adding a fresh entry and
      removing it again gives the list back. */
  lemma {:induction false} WithoutClean(items: seq<string>, t: string)
    requires Clean(items)
    ensures Clean(Without(items, t))
    ensures t !in items ==> Without(items, t) == items
    decreases |items|
  {
    if items != [] {
      WithoutClean(items[1..], t);
      var rest := Without(items[1..], t);
      if items[0] != t {
        assert Without(items, t) == [items[0]] + rest;
        forall i, j | 0 <= i < j < |[items[0]] + rest|
          ensures ([items[0]] + rest)[i] != ([items[0]] + rest)[j]
        {
          if i == 0 {
            assert rest[j - 1] in items[1..];
          }
        }
      }
      if t !in items {
        assert items == [items[0]] + items[1..];
      }
    }
  }

  lemma {:induction false} AddThenRemove(items: seq<string>, t: string)
    requires Clean(items) && Accepts(items, t)
    ensures Without(Added(items, t), Trim(t)) == items
  {
    var v := Trim(t);
    WithoutAppend(items, v);
    WithoutClean(items, v);
  }

  lemma {:induction false} WithoutAppend(items: seq<string>, v: string)
    ensures Without(items + [v], v) == Without(items, v)
    decreases |items|
  {
    if items == [] {
      assert Without([v], v) == [] + Without([], v);
    } else {
      WithoutAppend(items[1..], v);
      assert (items + [v])[1..] == items[1..] + [v];
    }
  }

  /** The tag editor of one generation. */
  class TagEditor {
    var tags: seq<string>
    var input: string

    /** `useState(initial ?? [])`. */
    constructor(initial: Option<seq<string>>)
      ensures tags == (if initial.Some? then initial.value else []) && input == ""
    {
      tags := if initial.Some? then initial.value else [];
      input := "";
    }

    /** `addTag(t)`: an accepted tag is appended and the input cleared;
        otherwise nothing changes. */
    method AddTag(t: string)
      modifies this
      ensures tags == Added(old(tags), t)
      ensures input == (if Accepts(old(tags), t) then "" else old(input))
    {
      var v := Trim(t);
      if v == [] {
        return;
      }
      if v in tags {
        return;
      }
      tags := tags + [v];
      input := "";
    }

    /** The effect on a new `initial` prop: the tags become the new
        initial tags, or none; the input is kept. */
    method Receive(initial: Option<seq<string>>)
      modifies this
      ensures tags == (if initial.Some? then initial.value else []) && input == old(input)
    {
      tags := if initial.Some? then initial.value else [];
    }

    /** `removeTag(t)` drops every occurrence of `t`. */
    method RemoveTag(t: string)
      modifies this
      ensures tags == Without(old(tags), t) && input == old(input)
    {
      tags := Without(tags, t);
    }

    /** Typing replaces the input. */
    method Type(text: string)
      modifies this
      ensures input == text && tags == old(tags)
    {
      input := text;
    }

    /** Enter adds the typed text as a tag; other keys change nothing. */
    method KeyDown(key: string)
      modifies this
      ensures key == "Enter" ==> tags == Added(old(tags), old(input))
      ensures key == "Enter" ==> input == (if Accepts(old(tags), old(input)) then "" else old(input))
      ensures key != "Enter" ==> tags == old(tags) && input == old(input)
    {
      if key == "Enter" {
        AddTag(input);
      }
    }
  }

  // ---------------------------------------------------------------------
  // MemoryForm.tsx

  /** The fields of a listed `Memory` the form reads when a parent is
      chosen. */
  datatype ParentMemory = ParentMemory(id: string, level: int, category: string)

  /** `availableParents.find(p => p.id === id)`. */
  function FindParent(parents: seq<ParentMemory>, id: string): (r: Option<ParentMemory>)
    ensures r.Some? ==> r.value in parents && r.value.id == id
    ensures r.None? <==> forall p :: p in parents ==> p.id != id
  {
    if parents == [] then None
    else if parents[0].id == id then Some(parents[0])
    else FindParent(parents[1..], id)
  }

  /** The form for a new or edited memory. */
  class MemoryForm {
    var concept: string
    var data: string
    var salience: real
    var connections: seq<string>
    var newConnection: string
    var memoryType: string
    var priority: real
    var category: string
    var parentId: Option<string>
    var level: int

    /** The initial state: each field of `initialData` with `||` defaults,
        so a zero salience becomes 0.5, a zero priority 1 and a zero
        level 0. */
    constructor(initial: Option<MemoryFormData>)
      ensures initial.None? ==>
        concept == "" && data == "" && salience == 0.5 && connections == [] &&
        memoryType == "core" && priority == 1.0 && category == "general" &&
        parentId.None? && level == 0
      ensures initial.Some? ==>
        var m := initial.value;
        concept == m.concept && data == m.data &&
        salience == (if m.salience != 0.0 then m.salience else 0.5) &&
        connections == m.connections &&
        memoryType == (if m.memoryType != "" then m.memoryType else "core") &&
        priority == (if m.priority != 0.0 then m.priority else 1.0) &&
        category == (if m.category != "" then m.category else "general") &&
        parentId == m.parentId && level == m.level
      ensures newConnection == ""
    {
      newConnection := "";
      if initial.Some? {
        var m := initial.value;
        concept := m.concept;
        data := m.data;
        salience := if m.salience != 0.0 then m.salience else 0.5;
        connections := m.connections;
        memoryType := if m.memoryType != "" then m.memoryType else "core";
        priority := if m.priority != 0.0 then m.priority else 1.0;
        category := if m.category != "" then m.category else "general";
        parentId := m.parentId;
        level := m.level;
      } else {
        concept := "";
        data := "";
        salience := 0.5;
        connections := [];
        memoryType := "core";
        priority := 1.0;
        category := "general";
        parentId := None;
        level := 0;
      }
    }

    /** `handleSubmit`: nothing when the trimmed concept or data is empty,
        otherwise the trimmed form without blank connections. */
    function Submitted(): (r: Option<MemoryFormData>)
      reads this
      ensures r.None? <==> IsBlank(concept) || IsBlank(data)
      ensures r.Some? ==>
        r.value.concept == Trim(concept) && r.value.data == Trim(data) &&
        r.value.connections == NonBlankOf(connections) &&
        r.value.salience == salience && r.value.memoryType == memoryType &&
        r.value.priority == priority && r.value.category == category &&
        r.value.parentId == parentId && r.value.level == level
    {
      if IsBlank(concept) || IsBlank(data) then None
      else Some(MemoryFormData(Trim(concept), Trim(data), salience, NonBlankOf(connections),
                               memoryType, priority, category, parentId, level))
    }

    /** `addConnection` adds the trimmed text when it is new and not empty,
        and then clears the input. */
    method AddConnection()
      modifies this
      ensures connections == Added(old(connections), old(newConnection))
      ensures newConnection == (if Accepts(old(connections), old(newConnection)) then "" else old(newConnection))
      ensures concept == old(concept) && data == old(data) && parentId == old(parentId) && level == old(level)
    {
      var v := Trim(newConnection);
      if v != [] && v !in connections {
        connections := connections + [v];
        newConnection := "";
      }
    }

    /** `removeConnection(i)` removes position `i` only. */
    method RemoveConnection(i: nat)
      modifies this
      ensures connections == RemoveAt(old(connections), i)
      ensures newConnection == old(newConnection) && concept == old(concept) && data == old(data)
    {
      connections := RemoveAt(connections, i);
    }

    /** `handleParentChange`: a listed parent puts the memory one level
        below it in the parent's category; clearing the parent (or the empty
        id) puts it at level 0; an unlisted id only sets the id. */
    method ChangeParent(newParentId: Option<string>, parents: seq<ParentMemory>)
      modifies this
      ensures parentId == newParentId
      ensures newParentId.None? || newParentId == Some("") ==> level == 0 && category == old(category)
      ensures newParentId.Some? && newParentId != Some("") ==>
        var p := FindParent(parents, newParentId.value);
        (p.Some? ==> level == p.value.level + 1 && category == p.value.category) &&
        (p.None? ==> level == old(level) && category == old(category))
      ensures concept == old(concept) && data == old(data) && connections == old(connections)
    {
      parentId := newParentId;
      if newParentId.Some? && newParentId.value != "" {
        var parent := FindParent(parents, newParentId.value);
        if parent.Some? {
          level := parent.value.level + 1;
          category := parent.value.category;
        }
      } else {
        level := 0;
      }
    }
  }

  /** A submitted memory has a non-blank, trimmed concept and data and no
      blank connection. */
  lemma {:induction false} SubmittedTrimmed(concept: string, data: string, connections: seq<string>)
    requires !IsBlank(concept) && !IsBlank(data)
    ensures !IsBlank(Trim(concept)) && Trim(Trim(concept)) == Trim(concept)
    ensures !IsBlank(Trim(data)) && Trim(Trim(data)) == Trim(data)
    ensures forall c :: c in NonBlankOf(connections) ==> !IsBlank(c)
  {
    BlankTrim(concept);
    BlankTrim(data);
    TrimIdem(concept);
    TrimIdem(data);
  }
}
