/** The stand-alone add/edit project form (src/components/AddProject.tsx). It
    talks to no backend: a valid submit starts a simulated save which, when
    its timer fires, resets the form. */
module AddProject {
  import opened Common
  import opened ProjectForm

  class AddProjectForm {
    var title: string
    var description: string
    var imageUrl: string
    var demoUrl: string
    var repoUrl: string
    var tags: seq<Tag>
    var tagInput: string
    var isSubmitting: bool
    var previewImage: Option<string>

    /** The form never holds more than ten tags, each non-empty and trimmed. */
    predicate Valid()
      reads this
    {
      WellFormedTags(tags)
    }

    /** The three link inputs: image, demo and repository. */
    function Links(): (string, string, string)
      reads this
    {
      (imageUrl, demoUrl, repoUrl)
    }

    function Editor(): TagEditor
      reads this
    {
      TagEditor(tags, tagInput)
    }

    /** Every field empty, no tags, no preview, not submitting. */
    predicate IsBlank()
      reads this
    {
      title == "" && description == "" && imageUrl == "" && demoUrl == "" && repoUrl == "" &&
      tags == [] && previewImage == None && !isSubmitting
    }

    constructor ()
      ensures Valid() && IsBlank() && tagInput == ""
    {
      title, description, imageUrl, demoUrl, repoUrl := "", "", "", "", "";
      tags := [];
      tagInput := "";
      isSubmitting := false;
      previewImage := None;
    }

    /** `addTag`, the new tag's id being the clock reading `now`. */
    method AddTag(now: string)
      requires Valid()
      modifies this
      ensures Valid()
      ensures Editor() == ProjectForm.AddTag(old(Editor()), now)
      ensures title == old(title) && description == old(description) && isSubmitting == old(isSubmitting)
      ensures previewImage == old(previewImage) && Links() == old(Links())
    {
      AddKeepsTagsWellFormed(Editor(), now, "");
      var e := ProjectForm.AddTag(Editor(), now);
      tags, tagInput := e.tags, e.input;
    }

    /** `removeTag(id)`. */
    method RemoveTag(id: string)
      requires Valid()
      modifies this
      ensures Valid()
      ensures tags == ProjectForm.RemoveTag(old(tags), id) && tagInput == old(tagInput)
      ensures title == old(title) && description == old(description) && isSubmitting == old(isSubmitting)
      ensures previewImage == old(previewImage) && Links() == old(Links())
    {
      RemoveKeepsTagsWellFormed(tags, id);
      tags := ProjectForm.RemoveTag(tags, id);
    }

    /** `handleTagKeyDown` for a key press `key`. */
    method HandleTagKeyDown(key: string, now: string)
      requires Valid()
      modifies this
      ensures Valid()
      ensures Editor() == ProjectForm.HandleTagKeyDown(key, old(Editor()), now)
      ensures title == old(title) && description == old(description) && isSubmitting == old(isSubmitting)
      ensures previewImage == old(previewImage) && Links() == old(Links())
    {
      if key == "Enter" && Text.Trim(tagInput) != "" {
        AddTag(now);
      }
    }

    /** `handleImageChange` once the reader has produced `dataUrl`; without a
        chosen file nothing changes. */
    method HandleImageChange(fileChosen: bool, dataUrl: string)
      modifies this
      ensures previewImage == if fileChosen then Some(dataUrl) else old(previewImage)
      ensures tags == old(tags) && title == old(title) && isSubmitting == old(isSubmitting)
      ensures description == old(description) && tagInput == old(tagInput) && Links() == old(Links())
    {
      if fileChosen {
        previewImage := Some(dataUrl);
      }
    }

    /** `clearImagePreview`. */
    method ClearImagePreview()
      modifies this
      ensures previewImage == None
      ensures tags == old(tags) && title == old(title) && isSubmitting == old(isSubmitting)
      ensures description == old(description) && tagInput == old(tagInput) && Links() == old(Links())
    {
      previewImage := None;
    }

    /** `handleSubmit`: a form without title, description or tags is rejected
        and nothing changes (`isSubmitting` stays as it was); otherwise the
        simulated save starts. */
    method HandleSubmit() returns (accepted: bool)
      modifies this
      ensures accepted <==> FieldsValid(old(title), old(description), old(tags))
      ensures isSubmitting == (accepted || old(isSubmitting))
      ensures tags == old(tags) && title == old(title) && description == old(description)
      ensures previewImage == old(previewImage) && tagInput == old(tagInput) && Links() == old(Links())
    {
      if title == "" || description == "" || |tags| == 0 {
        return false;
      }
      accepted := true;
      isSubmitting := true;
    }

    /** The simulated save's timer: fields, tags and preview are reset and
        submitting ends; the tag input box is not cleared. */
    method FinishSimulatedSave()
      modifies this
      ensures Valid() && IsBlank()
      ensures tagInput == old(tagInput)
    {
      title, description, imageUrl, demoUrl, repoUrl := "", "", "", "", "";
      tags := [];
      previewImage := None;
      isSubmitting := false;
    }
  }
}
