/** The admin panel's component state and its event handlers. `projects` is
    the list the panel edits through its `setProjects` property; the other
    fields are the panel's own state: the draft form, the id being edited,
    whether the form is open and the technology text box. */
module AdminPanelState {
  import opened Types
  import opened JsString
  import opened ProjectList

  /** A non-null `editingId` counts only when truthy, i.e. non-empty. */
  predicate IsEditing(editingId: Option<string>)
  {
    editingId.Some? && editingId.value != ""
  }

  class AdminPanel {
    var projects: seq<Project>
    var draft: Draft
    var editingId: Option<string>
    var isAdding: bool
    var techInput: string

    /** A record is only ever edited with the form open, so a closed form
        edits nothing and its save takes the create path. */
    predicate Valid()
      reads this
      ensures Valid() && !isAdding ==> editingId == None && !IsEditing(editingId)
    {
      editingId.Some? ==> isAdding
    }

    /** The state `resetForm` leaves behind. */
    predicate FormCleared()
      reads this
    {
      draft == EmptyDraft && editingId == None && !isAdding
    }

    /** Mounting the panel over the given list. */
    constructor (projects: seq<Project>)
      ensures Valid() && FormCleared()
      ensures this.projects == projects && techInput == ""
    {
      this.projects := projects;
      draft := EmptyDraft;
      editingId := None;
      isAdding := false;
      techInput := "";
    }

    /** `resetForm`: the draft back to its default, no record being edited,
        the form closed; the list and the technology text are untouched. */
    method ResetForm()
      modifies this
      ensures Valid() && FormCleared()
      ensures projects == old(projects) && techInput == old(techInput)
    {
      draft := EmptyDraft;
      editingId := None;
      isAdding := false;
    }

    /** The "Add New Project" button opens the form. */
    method OpenForm()
      requires Valid()
      modifies this`isAdding
      ensures Valid() && isAdding
    {
      isAdding := true;
    }

    /** `handleSaveProject`. With an empty title or description nothing
        changes. Otherwise, when a record is being edited every record with
        that id takes the draft's fields, and when none is the new record
        with id `newId` (the minted timestamp) is prepended; either way the
        form is then reset. */
    method SaveProject(newId: string)
      requires Valid()
      modifies this
      ensures Valid()
      ensures !CanSave(old(draft)) ==>
        projects == old(projects) && draft == old(draft) &&
        editingId == old(editingId) && isAdding == old(isAdding)
      ensures CanSave(old(draft)) && IsEditing(old(editingId)) ==>
        projects == UpdateById(old(projects), old(editingId).value, old(draft))
      ensures CanSave(old(draft)) && !IsEditing(old(editingId)) ==>
        projects == Create(old(projects), newId, old(draft))
      ensures CanSave(old(draft)) ==> FormCleared()
      ensures techInput == old(techInput)
    {
      if !CanSave(draft) {
        return;
      }
      if IsEditing(editingId) {
        projects := UpdateById(projects, editingId.value, draft);
      } else {
        projects := Create(projects, newId, draft);
      }
      ResetForm();
    }

    /** `handleEdit`: loads the record into the draft, remembers its id and
        opens the form. */
    method Edit(p: Project)
      requires Valid()
      modifies this
      ensures Valid()
      ensures draft == DraftOf(p) && editingId == Some(p.id) && isAdding
      ensures projects == old(projects) && techInput == old(techInput)
    {
      draft := DraftOf(p);
      editingId := Some(p.id);
      isAdding := true;
    }

    /** `handleDelete`: removes every record with the id; the form is reset
        exactly when that id is the one being edited. */
    method Delete(id: string)
      requires Valid()
      modifies this
      ensures Valid()
      ensures projects == DeleteById(old(projects), id)
      ensures old(editingId) == Some(id) ==> FormCleared()
      ensures old(editingId) != Some(id) ==>
        draft == old(draft) && editingId == old(editingId) && isAdding == old(isAdding)
      ensures techInput == old(techInput)
    {
      projects := DeleteById(projects, id);
      if editingId == Some(id) {
        ResetForm();
      }
    }

    /** `handleGenerateAI`, with the generator as a parameter. Without a title
        it only alerts; otherwise the generated text replaces the draft's
        description and nothing else changes. */
    method GenerateDescription(describe: (string, string) -> string) returns (alerted: bool)
      requires Valid()
      modifies this`draft
      ensures Valid()
      ensures alerted <==> old(draft).title == ""
      ensures alerted ==> draft == old(draft)
      ensures !alerted ==>
        draft == old(draft).(description := describe(old(draft).title, TechSummary(old(draft).technologies, techInput)))
    {
      if draft.title == "" {
        return true;
      }
      var desc := describe(draft.title, TechSummary(draft.technologies, techInput));
      draft := draft.(description := desc);
      return false;
    }

    /** `handleGenerateImage`, with the generator as a parameter. Without a
        title it only alerts; a null or empty result alerts and leaves the
        draft alone; any other result becomes the draft's image. */
    method GenerateImage(generate: string -> Option<string>) returns (alerted: bool)
      requires Valid()
      modifies this`draft
      ensures Valid()
      ensures old(draft).title == "" ==> alerted && draft == old(draft)
      ensures old(draft).title != "" ==>
        var result := generate(ImagePrompt(old(draft)));
        if result.Some? && result.value != "" then
          !alerted && draft == old(draft).(imageUrl := result.value)
        else
          alerted && draft == old(draft)
    {
      if draft.title == "" {
        return true;
      }
      var result := generate(ImagePrompt(draft));
      if result.Some? && result.value != "" {
        draft := draft.(imageUrl := result.value);
        return false;
      }
      return true;
    }

    /** `handleFileUpload`: when a file was chosen, its data URL becomes the
        draft's image. */
    method UploadImage(dataUrl: Option<string>)
      requires Valid()
      modifies this`draft
      ensures Valid()
      ensures draft == if dataUrl.Some? then old(draft).(imageUrl := dataUrl.value) else old(draft)
    {
      if dataUrl.Some? {
        draft := draft.(imageUrl := dataUrl.value);
      }
    }

    /** `addTech`: a non-blank entry is appended trimmed to the draft's tags
        and the text box is cleared; a blank entry changes nothing, and the
        text box keeps it. */
    method AddTech()
      requires Valid()
      modifies this`draft, this`techInput
      ensures Valid()
      ensures !IsBlank(old(techInput)) ==>
        draft == old(draft).(technologies := old(draft).technologies + [Trim(old(techInput))]) &&
        techInput == ""
      ensures IsBlank(old(techInput)) ==> draft == old(draft) && techInput == old(techInput)
    {
      var t := Trim(techInput);
      if t != "" {
        draft := draft.(technologies := draft.technologies + [t]);
        techInput := "";
      }
    }

    /** Clicking a tag removes every occurrence of it from the draft. */
    method RemoveTech(t: string)
      requires Valid()
      modifies this`draft
      ensures Valid()
      ensures draft == old(draft).(technologies := RemoveTag(old(draft).technologies, t))
    {
      draft := draft.(technologies := RemoveTag(draft.technologies, t));
    }

    /** Typing into the title box. */
    method SetTitle(title: string)
      requires Valid()
      modifies this`draft
      ensures Valid() && draft == old(draft).(title := title)
    {
      draft := draft.(title := title);
    }

    /** Typing into the description box. */
    method SetDescription(description: string)
      requires Valid()
      modifies this`draft
      ensures Valid() && draft == old(draft).(description := description)
    {
      draft := draft.(description := description);
    }

    /** Choosing a category. */
    method SetCategory(category: Category)
      requires Valid()
      modifies this`draft
      ensures Valid() && draft == old(draft).(category := category)
    {
      draft := draft.(category := category);
    }

    /** The "Remove Image" button empties the draft's image. */
    method RemoveImage()
      requires Valid()
      modifies this`draft
      ensures Valid() && draft == old(draft).(imageUrl := "")
    {
      draft := draft.(imageUrl := "");
    }

    /** Typing into the technology box. */
    method SetTechInput(text: string)
      requires Valid()
      modifies this`techInput
      ensures Valid() && techInput == text
    {
      techInput := text;
    }
  }
}
