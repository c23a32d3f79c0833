/** The checklist editor window: an ordered list of check boxes, persisted as the list of
    their texts. An empty checklist shows a single placeholder item, which cannot be
    deleted and is dropped by the first item added. */
module ChecklistEditing {
  import opened Common

  /** The placeholder item of an empty checklist. */
  const DefaultTODO: string := "TODO: Add stuff to this checklist!"

  /** A WPF check box of the list: its text, fixed when it is made, and whether the
      operator has ticked it. */
  class CheckBox {
    const content: string
    var isChecked: bool

    /** `new CheckBox() { Content = content }`: a new box starts unticked. */
    constructor (content: string)
      ensures this.content == content && !isChecked
    {
      this.content := content;
      isChecked := false;
    }

    /** The operator ticks or clears the box. */
    method SetChecked(value: bool)
      modifies this
      ensures isChecked == value
    {
      isChecked := value;
    }
  }

  /** `Select(checkbox => checkbox.Content.ToString())`: the texts of the boxes, in order. */
  function Texts(boxes: seq<CheckBox>): (r: seq<string>)
    ensures |r| == |boxes|
    ensures forall i :: 0 <= i < |boxes| ==> r[i] == boxes[i].content
  {
    if boxes == [] then [] else [boxes[0].content] + Texts(boxes[1..])
  }

  /** `All(checkbox => checkbox.IsChecked == true)`. */
  function AllChecked(boxes: seq<CheckBox>): (r: bool)
    reads boxes
    ensures r <==> forall i :: 0 <= i < |boxes| ==> boxes[i].isChecked
  {
    boxes == [] || (boxes[0].isChecked && AllChecked(boxes[1..]))
  }

  /** The position of the first occurrence of `x` in `s`. */
  function FirstIndex<T(==)>(s: seq<T>, x: T): (i: nat)
    requires x in s
    ensures i < |s| && s[i] == x && x !in s[..i]
  {
    if s[0] == x then 0 else 1 + FirstIndex(s[1..], x)
  }

  /** `List.Remove(x)`: the first occurrence of `x` (by reference) is taken out; a list
      without `x` is left as it is. */
  function RemoveFirst<T(==)>(s: seq<T>, x: T): (r: seq<T>)
    ensures x !in s ==> r == s
    ensures x in s ==> |r| == |s| - 1
  {
    if s == [] then []
    else if s[0] == x then s[1..]
    else [s[0]] + RemoveFirst(s[1..], x)
  }

  /** The element removed is the first occurrence, and the others keep their order. */
  lemma {:induction false} RemoveFirstSplits<T>(s: seq<T>, x: T)
    requires x in s
    ensures RemoveFirst(s, x) == s[..FirstIndex(s, x)] + s[FirstIndex(s, x) + 1..]
  {
    if s[0] != x {
      RemoveFirstSplits(s[1..], x);
      var i := FirstIndex(s[1..], x);
      assert FirstIndex(s, x) == 1 + i;
      assert s[..1 + i] == [s[0]] + s[1..][..i];
      assert s[1 + i + 1..] == s[1..][i + 1..];
    }
  }

  /** Removal takes out exactly one copy of the element and nothing else. */
  lemma RemoveFirstMultiset<T>(s: seq<T>, x: T)
    requires x in s
    ensures multiset(RemoveFirst(s, x)) == multiset(s) - multiset{x}
  {
    var i := FirstIndex(s, x);
    RemoveFirstSplits(s, x);
    assert s == s[..i] + [x] + s[i + 1..];
  }

  /** What `Reload` shows for the stored checklist data: the placeholder alone when there
      is no data or it is empty, the stored texts otherwise. */
  function ReloadedTexts(stored: Option<seq<string>>): (r: seq<string>)
    ensures r != []
    ensures stored != None && stored.value != [] ==> r == stored.value
    ensures stored == None || stored.value == [] ==> r == [DefaultTODO]
  {
    match stored
    case None => [DefaultTODO]
    case Some(items) => if items == [] then [DefaultTODO] else items
  }

  class ChecklistEditor {
    /** `CheckListList`: the boxes shown, in order. */
    var checkListList: seq<CheckBox>
    /** The checklist data in the data file: None when it holds none. */
    var stored: Option<seq<string>>

    /** The window loads the checklist from the data file. */
    constructor (storedChecklist: Option<seq<string>>)
      ensures stored == storedChecklist
      ensures CheckListItems() == ReloadedTexts(storedChecklist)
      ensures forall i :: 0 <= i < |checkListList| ==> !checkListList[i].isChecked
    {
      stored := storedChecklist;
      checkListList := [];
      new;
      Reload();
    }

    /** The `CheckListItems` getter: the texts of the boxes shown. */
    function CheckListItems(): (items: seq<string>)
      reads this
      ensures |items| == |checkListList|
      ensures forall i :: 0 <= i < |items| ==> items[i] == checkListList[i].content
    {
      Texts(checkListList)
    }

    /** `CheckListComplete`: every box shown is ticked. */
    predicate CheckListComplete()
      reads this, checkListList
      ensures CheckListComplete() <==> forall i :: 0 <= i < |checkListList| ==> checkListList[i].isChecked
    {
      AllChecked(checkListList)
    }

    /** The `CheckListItems` setter: the list is rebuilt from new, unticked boxes carrying
        the given texts in order. */
    method SetCheckListItems(value: seq<string>)
      modifies this`checkListList
      ensures CheckListItems() == value
      ensures forall i :: 0 <= i < |checkListList| ==> fresh(checkListList[i]) && !checkListList[i].isChecked
    {
      checkListList := [];
      for n := 0 to |value|
        invariant |checkListList| == n
        invariant forall i :: 0 <= i < n ==>
          fresh(checkListList[i]) && checkListList[i].content == value[i] && !checkListList[i].isChecked
      {
        var box := new CheckBox(value[n]);
        checkListList := checkListList + [box];
      }
    }

    /** `Reload`: shows the stored checklist, or the placeholder when there is none. */
    method Reload()
      modifies this`checkListList
      ensures CheckListItems() == ReloadedTexts(stored)
      ensures forall i :: 0 <= i < |checkListList| ==> fresh(checkListList[i]) && !checkListList[i].isChecked
    {
      if stored == None || stored.value == [] {
        SetCheckListItems([DefaultTODO]);
      } else {
        SetCheckListItems(stored.value);
      }
    }

    /** `DeleteItem(box)`: a null box or one showing the placeholder text is refused;
        otherwise the box is removed, the rest keep their order, and the list of texts
        is stored. */
    method DeleteItem(box: CheckBox?)
      modifies this`checkListList, this`stored
      ensures box == null || box.content == DefaultTODO ==>
        checkListList == old(checkListList) && stored == old(stored)
      ensures box != null && box.content != DefaultTODO ==>
        checkListList == RemoveFirst<CheckBox>(old(checkListList), box) && stored == Some(CheckListItems())
    {
      if box == null || box.content == DefaultTODO {
        return;
      }
      checkListList := RemoveFirst<CheckBox>(checkListList, box);
      stored := Some(CheckListItems());
    }

    /** `AddItem(text)`: a list holding only the placeholder loses it first; `text` is
        appended after the other texts, every box is rebuilt unticked, and the list of
        texts is stored. */
    method AddItem(text: string)
      modifies this`checkListList, this`stored
      ensures CheckListItems() ==
        (if old(CheckListItems()) == [DefaultTODO] then [] else old(CheckListItems())) + [text]
      ensures forall i :: 0 <= i < |checkListList| ==> fresh(checkListList[i]) && !checkListList[i].isChecked
      ensures !CheckListComplete()
      ensures stored == Some(CheckListItems())
    {
      if |CheckListItems()| == 1 && checkListList[0].content == DefaultTODO {
        checkListList := checkListList[1..];
      }
      var checklist := CheckListItems() + [text];
      SetCheckListItems(checklist);
      stored := Some(CheckListItems());
    }
  }

  /** What `AddItem` or `DeleteItem` stores is what a new editor on the same data file
      shows: the same texts, or the placeholder once the last item was deleted. */
  method ReopenShowsStoredChecklist(editor: ChecklistEditor) returns (reopened: ChecklistEditor)
    requires editor.stored == Some(editor.CheckListItems())
    ensures reopened.CheckListItems() ==
      if editor.CheckListItems() == [] then [DefaultTODO] else editor.CheckListItems()
  {
    reopened := new ChecklistEditor(editor.stored);
  }
}
