/** The tag editor and the field check that the two project forms share
    (src/components/AddProject.tsx and src/pages/EditProjectPage.tsx hold the
    same handlers; only the id source differs). */
module ProjectForm {
  import opened Text
  import opened Seqs

  /** The most tags the editor lets a user add. */
  const MaxTags: nat := 10

  /** A tag as the editor holds it: an id for removal and its text. */
  datatype Tag = Tag(id: string, text: string)

  /** `tags.map(tag => tag.text)`. */
  function TagTexts(tags: seq<Tag>): seq<string> {
    seq(|tags|, i requires 0 <= i < |tags| => tags[i].text)
  }

  /** The tag list together with the tag input box. */
  datatype TagEditor = TagEditor(tags: seq<Tag>, input: string)

  /** `tagInput.trim() && tags.length < 10`: what enables the add button and
      lets `addTag` act. */
  predicate CanAddTag(e: TagEditor) {
    Trim(e.input) != "" && |e.tags| < MaxTags
  }

  /** `addTag` with `freshId` as the new tag's id. When the trimmed input is
      non-empty and there are fewer than ten tags, the trimmed input is
      appended as a new tag and the input is cleared; otherwise nothing
      changes. Existing tags are never touched, and no list grows past ten. */
  function AddTag(e: TagEditor, freshId: string): (r: TagEditor)
    ensures |r.tags| >= |e.tags| && r.tags[..|e.tags|] == e.tags
    ensures |r.tags| == |e.tags| + 1 <==> CanAddTag(e)
    ensures CanAddTag(e) ==>
      r.tags[|e.tags|] == Tag(freshId, Trim(e.input)) && r.input == "" &&
      r.tags[|e.tags|].text != "" && IsTrimmed(r.tags[|e.tags|].text)
    ensures !CanAddTag(e) ==> r == e
    ensures |e.tags| <= MaxTags ==> |r.tags| <= MaxTags
  {
    var t := Trim(e.input);
    if t != "" && |e.tags| < MaxTags then TagEditor(e.tags + [Tag(freshId, t)], "") else e
  }

  /** `removeTag(id)`: every tag with that id goes (ids made from a clock
      reading may repeat, and then all of them go), every other tag stays as
      often as before, and the order is kept. */
  function RemoveTag(tags: seq<Tag>, id: string): (r: seq<Tag>)
    ensures forall t :: t in r ==> t in tags && t.id != id
    ensures forall t: Tag :: t.id != id ==> multiset(r)[t] == multiset(tags)[t]
    ensures IsSubsequence(r, tags)
    ensures |r| <= |tags|
  {
    FilterIsSubsequence(tags, (t: Tag) => t.id != id);
    FilterCounts(tags, (t: Tag) => t.id != id);
    Filter(tags, (t: Tag) => t.id != id)
  }

  /** `handleTagKeyDown`: only Enter with a non-blank input adds a tag. */
  function HandleTagKeyDown(key: string, e: TagEditor, freshId: string): (r: TagEditor)
    ensures key != "Enter" ==> r == e
    ensures |r.tags| == |e.tags| + 1 <==> key == "Enter" && CanAddTag(e)
  {
    if key == "Enter" && Trim(e.input) != "" then AddTag(e, freshId) else e
  }

  /** The key handler's own blank check is redundant: Enter behaves exactly
      like the add button, and every other key does nothing. */
  lemma KeyDownIsAddOnEnter(key: string, e: TagEditor, freshId: string)
    ensures HandleTagKeyDown(key, e, freshId) == if key == "Enter" then AddTag(e, freshId) else e
  {
  }

  /** Tags the editor itself produces: at most ten, each non-empty and
      trimmed. */
  predicate WellFormedTags(tags: seq<Tag>) {
    |tags| <= MaxTags && forall i :: 0 <= i < |tags| ==> tags[i].text != "" && IsTrimmed(tags[i].text)
  }

  /** Adding a tag (by the button or by Enter) keeps a well-formed list well
      formed: the new tag is non-empty and trimmed, and the bound of ten is
      checked first. */
  lemma AddKeepsTagsWellFormed(e: TagEditor, freshId: string, key: string)
    requires WellFormedTags(e.tags)
    ensures WellFormedTags(AddTag(e, freshId).tags)
    ensures WellFormedTags(HandleTagKeyDown(key, e, freshId).tags)
  {
    if CanAddTag(e) {
      var t := Trim(e.input);
      var r := e.tags + [Tag(freshId, t)];
      assert AddTag(e, freshId).tags == r;
      forall i | 0 <= i < |r|
        ensures r[i].text != "" && IsTrimmed(r[i].text)
      {
        if i < |e.tags| {
          assert r[i] == e.tags[i];
        } else {
          assert r[i].text == t;
        }
      }
    }
    KeyDownIsAddOnEnter(key, e, freshId);
  }

  /** Removing tags keeps a well-formed list well formed. */
  lemma RemoveKeepsTagsWellFormed(tags: seq<Tag>, id: string)
    requires WellFormedTags(tags)
    ensures WellFormedTags(RemoveTag(tags, id))
  {
    var r := RemoveTag(tags, id);
    forall i | 0 <= i < |r|
      ensures r[i].text != "" && IsTrimmed(r[i].text)
    {
      assert r[i] in r;
      var j :| 0 <= j < |tags| && tags[j] == r[i];
    }
  }

  /** `!title || !description || tags.length === 0` rejects: a project needs
      a title, a description and at least one tag (blank text counts as
      given). */
  predicate FieldsValid(title: string, description: string, tags: seq<Tag>) {
    title != "" && description != "" && |tags| > 0
  }
}
