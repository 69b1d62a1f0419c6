/** The inline text editor (app/components/EditableText.tsx): the text shown,
    the draft being edited, and the save/cancel gate that decides when the
    `onSave` callback fires. */
module EditableText {
  import opened Common

  /** The characters `String.prototype.trim` removes: white space and line
      terminators. */
  predicate IsTrimmed(c: char) {
    || c == '\t' || c == '\n' || c == '\U{000B}' || c == '\U{000C}' || c == '\r' || c == ' '
    || c == '\U{00A0}' || c == '\U{1680}' || ('\U{2000}' <= c <= '\U{200A}')
    || c == '\U{2028}' || c == '\U{2029}' || c == '\U{202F}' || c == '\U{205F}'
    || c == '\U{3000}' || c == '\U{FEFF}'
  }

  /** `s.trim()` is the empty string. */
  predicate Blank(s: string) {
    forall i :: 0 <= i < |s| ==> IsTrimmed(s[i])
  }

  /** `content || defaultValue` */
  function DisplayText(content: Option<string>, defaultValue: string): (r: string)
    ensures Present(content) ==> r == content.value
    ensures !Present(content) ==> r == defaultValue
    ensures r == "" ==> !Present(content) && defaultValue == ""
  {
    OrElse(content, defaultValue)
  }

  /** The save gate: `tempValue.trim() && tempValue !== content`. */
  predicate ShouldSave(tempValue: string, content: Option<string>) {
    !Blank(tempValue) && Some(tempValue) != content
  }

  /** What the component renders. */
  datatype View =
    | Preview(text: string)
    | Input(value: string)
    | Editable(text: string)

  /** One `onSave(key, value)` call. */
  datatype Saved = Saved(key: string, value: string)

  class Editor {
    const contentKey: string
    const content: Option<string>
    const defaultValue: string
    const isEditMode: bool

    var isEditing: bool
    var tempValue: string
    /** The `onSave` calls made so far, oldest first. */
    var saves: seq<Saved>

    /** Editing is reachable only in edit mode. */
    ghost predicate Valid()
      reads this
    {
      isEditing ==> isEditMode
    }

    /** The props; `defaultValue` is `''` when not given. */
    constructor (contentKey: string, content: Option<string>, defaultValue: string, isEditMode: bool)
      ensures Valid()
      ensures this.contentKey == contentKey && this.content == content
      ensures this.defaultValue == defaultValue && this.isEditMode == isEditMode
      ensures !isEditing && tempValue == DisplayText(content, defaultValue) && saves == []
    {
      this.contentKey := contentKey;
      this.content := content;
      this.defaultValue := defaultValue;
      this.isEditMode := isEditMode;
      isEditing := false;
      tempValue := OrElse(content, defaultValue);
      saves := [];
    }

    /** The rendered branch: outside edit mode only the text; in edit mode
        the input while editing, the clickable text otherwise. */
    function Render(): (v: View)
      reads this
      ensures !isEditMode ==> v == Preview(DisplayText(content, defaultValue))
      ensures isEditMode && isEditing ==> v == Input(tempValue)
      ensures isEditMode && !isEditing ==> v == Editable(DisplayText(content, defaultValue))
    {
      if !isEditMode then Preview(DisplayText(content, defaultValue))
      else if isEditing then Input(tempValue)
      else Editable(DisplayText(content, defaultValue))
    }

    /** A click on the text (or its pencil button), which exists only in the
        `Editable` view. */
    method Click()
      requires Valid()
      modifies this
      ensures Valid()
      ensures isEditing == (old(isEditing) || isEditMode)
      ensures tempValue == old(tempValue) && saves == old(saves)
    {
      if isEditMode && !isEditing {
        isEditing := true;
      }
    }

    /** `onChange` of the input, which exists only while editing. */
    method Type(value: string)
      requires Valid()
      modifies this
      ensures Valid()
      ensures isEditing == old(isEditing) && saves == old(saves)
      ensures tempValue == (if old(isEditing) then value else old(tempValue))
    {
      if isEditing {
        tempValue := value;
      }
    }

    /** `handleSave`: saves through the gate, and leaves editing either way. */
    method Save()
      requires Valid()
      modifies this
      ensures Valid() && !isEditing && tempValue == old(tempValue)
      ensures saves == old(saves) + (if ShouldSave(old(tempValue), content) then [Saved(contentKey, old(tempValue))] else [])
    {
      if !Blank(tempValue) && Some(tempValue) != content {
        saves := saves + [Saved(contentKey, tempValue)];
      }
      isEditing := false;
    }

    /** `handleCancel`: the draft goes back to the displayed text. */
    method Cancel()
      requires Valid()
      modifies this
      ensures Valid() && !isEditing && saves == old(saves)
      ensures tempValue == DisplayText(content, defaultValue)
    {
      tempValue := OrElse(content, defaultValue);
      isEditing := false;
    }

    /** `onKeyDown` of the input: Enter saves, Escape cancels. */
    method KeyDown(key: string)
      requires Valid()
      modifies this
      ensures Valid()
      ensures !old(isEditing) || (key != "Enter" && key != "Escape") ==>
                isEditing == old(isEditing) && tempValue == old(tempValue) && saves == old(saves)
      ensures old(isEditing) && key == "Enter" ==>
                !isEditing && tempValue == old(tempValue)
                && saves == old(saves) + (if ShouldSave(old(tempValue), content) then [Saved(contentKey, old(tempValue))] else [])
      ensures old(isEditing) && key == "Escape" ==>
                !isEditing && saves == old(saves) && tempValue == DisplayText(content, defaultValue)
    {
      if isEditing {
        if key == "Enter" {
          Save();
        } else if key == "Escape" {
          Cancel();
        }
      }
    }
  }

  /** Saving an untouched draft calls `onSave` only when `content` is unset
      and the default text is not blank: the draft starts as the displayed
      text, which is `content` whenever `content` is set. */
  lemma UntouchedDraftSavesOnlyDefault(content: Option<string>, defaultValue: string)
    ensures ShouldSave(DisplayText(content, defaultValue), content) <==>
              !Present(content) && !Blank(defaultValue)
  {
    if !Present(content) && defaultValue == "" {
      assert Blank(defaultValue);
    }
  }

  /** A draft of only white space is never saved. */
  lemma BlankNeverSaved(tempValue: string, content: Option<string>)
    requires Blank(tempValue)
    ensures !ShouldSave(tempValue, content)
  {
  }

  /** Editing, typing and pressing Escape leaves nothing saved and the draft
      back at the displayed text; typing again and pressing Enter saves the
      new text once. */
  method EditCancelThenSave()
  {
    var e := new Editor("heroTitle", Some("Old"), "Default", true);
    e.Click();
    e.Type("New");
    e.KeyDown("Escape");
    assert e.saves == [] && e.tempValue == "Old" && !e.isEditing;
    e.Click();
    e.Type("New");
    e.KeyDown("Enter");
    assert ShouldSave("New", Some("Old")) by {
      assert !IsTrimmed("New"[0]);
    }
    assert e.saves == [Saved("heroTitle", "New")];
    assert e.Render() == Editable("Old");
  }

  /** In preview mode clicks and keys change nothing. */
  method PreviewIsInert()
  {
    var e := new Editor("heroTitle", None, "Expert Plumbing", false);
    e.Click();
    e.KeyDown("Enter");
    assert !e.isEditing && e.saves == [];
    assert e.Render() == Preview("Expert Plumbing");
  }
}
