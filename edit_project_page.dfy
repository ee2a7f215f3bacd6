/** The admin project editor (src/pages/EditProjectPage.tsx): create a project
    or, with an id in the route, load and update one. The image upload, the
    public-URL lookup, the row read and the write are inputs; so are the
    generated ids and the clock. */
module EditProjectPage {
  import opened Common
  import opened Views
  import opened Supabase
  import opened Text
  import opened ProjectForm
  import Auth
  import ProtectedRoute

  /** A chosen image file; only its name is read. */
  datatype FileRef = FileRef(name: string)

  /** `name.split('.').pop()`: the text after the last dot, or the whole name
      when it has no dot. */
  function FileExt(name: string): (ext: string)
    ensures '.' !in ext
    ensures |ext| <= |name| && name[|name| - |ext|..] == ext
    ensures |ext| < |name| ==> name[|name| - |ext| - 1] == '.'
    ensures '.' !in name ==> ext == name
  {
    SplitLastPiece(name, '.');
    var r := Split(name, '.');
    assert |r[|r| - 1]| < |name| ==> name[|name| - |r[|r| - 1]| - 1] in name;
    r[|r| - 1]
  }

  /** `projects/${uuid}.${ext}`: where a new image is stored. */
  function StoragePath(file: FileRef, uuid: string): string {
    "projects/" + uuid + "." + FileExt(file.name)
  }

  /** The stored object keeps the chosen file's extension, and lives under
      `projects/`. */
  lemma StoragePathKeepsExtension(file: FileRef, uuid: string)
    ensures FileExt(StoragePath(file, uuid)) == FileExt(file.name)
    ensures StartsWith(StoragePath(file, uuid), "projects/")
  {
    var e := FileExt(file.name);
    var s := StoragePath(file, uuid);
    var l := FileExt(s);
    assert s[|s| - |e| - 1] == '.';
    assert s[|s| - |e|..] == e;
    assert |l| == |e|;
  }

  /** What `uploadImage` does before talking to storage. */
  datatype ImagePlan = NoImage | KeepPreview(url: string) | Upload(path: string)

  /** The decision at the top of `uploadImage`: with neither a file nor a
      preview there is no image; an edit with a preview and no new file keeps
      the preview; without a file there is no image; otherwise the file is
      uploaded under a fresh path. */
  function PlanImage(isEditing: bool, file: Option<FileRef>, preview: Option<string>, uuid: string): (p: ImagePlan)
    ensures p.Upload? <==> file.Some?
    ensures p.KeepPreview? <==> isEditing && file.None? && Truthy(preview)
    ensures p.KeepPreview? ==> p.url == preview.value
    ensures p.Upload? ==> p.path == StoragePath(file.value, uuid)
  {
    if file.None? && !Truthy(preview) then NoImage
    else if isEditing && Truthy(preview) && file.None? then KeepPreview(preview.value)
    else if file.None? then NoImage
    else Upload(StoragePath(file.value, uuid))
  }

  /** The storage answer: the upload failed, or it worked and this is the
      file's public URL. */
  datatype UploadOutcome = UploadFailed | Uploaded(publicUrl: string)

  /** The URL `uploadImage` resolves to; a failed upload resolves to null. */
  function UploadImage(plan: ImagePlan, outcome: UploadOutcome): (url: Option<string>)
    ensures url.Some? ==> !plan.NoImage?
    ensures plan.KeepPreview? ==> url == Some(plan.url)
    ensures plan.Upload? ==> (url.Some? <==> outcome.Uploaded?)
    ensures plan.Upload? && url.Some? ==> url.value == outcome.publicUrl
  {
    match plan
    case NoImage => None
    case KeepPreview(u) => Some(u)
    case Upload(_) => if outcome.Uploaded? then Some(outcome.publicUrl) else None
  }

  /** The text fields and the featured switch. */
  datatype FormData = FormData(title: string, description: string, demoUrl: string, repoUrl: string, featured: bool)

  const BlankForm: FormData := FormData("", "", "", "", false)

  /** The row sent to the `projects` table. */
  datatype Payload = Payload(
    title: string,
    description: string,
    imageUrl: Option<string>,
    demoUrl: Option<string>,
    repoUrl: Option<string>,
    tags: seq<string>,
    featured: bool)

  /** `projectData`: the image is the resolved URL or else the preview, the
      empty links are sent as null, and the tags are the tag texts in order. */
  function BuildPayload(f: FormData, tags: seq<Tag>, imageUrl: Option<string>, preview: Option<string>): (p: Payload)
    ensures p.title == f.title && p.description == f.description && p.featured == f.featured
    ensures p.imageUrl == if Truthy(imageUrl) then imageUrl else preview
    ensures Truthy(p.demoUrl) <==> f.demoUrl != ""
    ensures Truthy(p.repoUrl) <==> f.repoUrl != ""
    ensures EmptyIfNull(p.demoUrl) == f.demoUrl && EmptyIfNull(p.repoUrl) == f.repoUrl
    ensures |p.tags| == |tags| && forall i :: 0 <= i < |tags| ==> p.tags[i] == tags[i].text
  {
    Payload(f.title, f.description, if Truthy(imageUrl) then imageUrl else preview,
      NullIfEmpty(f.demoUrl), NullIfEmpty(f.repoUrl), TagTexts(tags), f.featured)
  }

  /** The write `handleSubmit` issues: an update of the routed row, or an
      insert with a fresh id and creation time. */
  datatype Write = UpdateRow(id: string, payload: Payload) | InsertRow(payload: Payload, id: string, createdAt: string)

  /** What one submit did: whether it reached storage, the write it issued,
      and where it navigated. */
  datatype SubmitResult = SubmitResult(uploadAttempted: bool, write: Option<Write>, navigateTo: Option<string>)

  const NothingDone: SubmitResult := SubmitResult(false, None, None)

  /** `handleSubmit` as the page has it. `routeId` is the route's id
      (`isEditing` is its truthiness); `uuid` names a new image, `newId` and
      `now` a new row; `upload` and `written` are the storage and table
      answers. Missing fields stop everything; a create without an image URL
      writes nothing; navigation follows only a successful write. */
  function SubmitAsWritten(routeId: Option<string>, f: FormData, tags: seq<Tag>, file: Option<FileRef>,
      preview: Option<string>, uuid: string, upload: UploadOutcome, newId: string, now: string,
      written: Status): (r: SubmitResult)
    ensures !FieldsValid(f.title, f.description, tags) ==> r == NothingDone
    ensures r.uploadAttempted <==> FieldsValid(f.title, f.description, tags) && file.Some?
    ensures var u := UploadImage(PlanImage(Truthy(routeId), file, preview, uuid), upload);
            r.write.Some? <==> FieldsValid(f.title, f.description, tags) && (Truthy(routeId) || Truthy(u))
    ensures var u := UploadImage(PlanImage(Truthy(routeId), file, preview, uuid), upload);
            r.write.Some? ==> r.write.value.payload == BuildPayload(f, tags, u, preview)
    ensures r.write.Some? ==> (r.write.value.UpdateRow? <==> Truthy(routeId))
    ensures r.write.Some? && r.write.value.UpdateRow? ==> r.write.value.id == routeId.value
    ensures r.write.Some? && r.write.value.InsertRow? ==>
      r.write.value.id == newId && r.write.value.createdAt == now && Truthy(r.write.value.payload.imageUrl)
    ensures r.navigateTo.Some? <==> r.write.Some? && written == Success
    ensures r.navigateTo.Some? ==> r.navigateTo.value == AdminProjectsRoute
  {
    if !FieldsValid(f.title, f.description, tags) then NothingDone
    else
      var isEditing := Truthy(routeId);
      var url := UploadImage(PlanImage(isEditing, file, preview, uuid), upload);
      if !Truthy(url) && !isEditing then SubmitResult(file.Some?, None, None)
      else
        var payload := BuildPayload(f, tags, url, preview);
        var w := if isEditing then UpdateRow(routeId.value, payload) else InsertRow(payload, newId, now);
        SubmitResult(file.Some?, Some(w), if written == Success then Some(AdminProjectsRoute) else None)
  }

  /** The defect: editing a project, choosing a new file (whose preview is
      the reader's data URL) and failing to upload it still updates the row,
      with the data URL as the image, and navigates as after a success. */
  lemma FailedUploadStoresPreview(id: string, f: FormData, tags: seq<Tag>, file: FileRef, dataUrl: string,
      uuid: string, newId: string, now: string)
    requires id != "" && FieldsValid(f.title, f.description, tags)
    ensures var r := SubmitAsWritten(Some(id), f, tags, Some(file), Some(dataUrl), uuid, UploadFailed, newId, now, Success);
            r.write.Some? && r.write.value.UpdateRow? &&
            r.write.value.payload.imageUrl == Some(dataUrl) &&
            r.navigateTo == Some(AdminProjectsRoute)
  {
  }

  /** `handleSubmit` with the defect corrected: a failed upload of a chosen
      file stops the save, as a create without an image already does. */
  function Submit(routeId: Option<string>, f: FormData, tags: seq<Tag>, file: Option<FileRef>,
      preview: Option<string>, uuid: string, upload: UploadOutcome, newId: string, now: string,
      written: Status): (r: SubmitResult)
    ensures !FieldsValid(f.title, f.description, tags) ==> r == NothingDone
    ensures r.uploadAttempted <==> FieldsValid(f.title, f.description, tags) && file.Some?
    ensures var u := UploadImage(PlanImage(Truthy(routeId), file, preview, uuid), upload);
            r.write.Some? <==>
              FieldsValid(f.title, f.description, tags) && !(file.Some? && upload.UploadFailed?) &&
              (Truthy(routeId) || Truthy(u))
    ensures var u := UploadImage(PlanImage(Truthy(routeId), file, preview, uuid), upload);
            r.write.Some? ==> r.write.value.payload == BuildPayload(f, tags, u, preview)
    ensures r.write.Some? ==> (r.write.value.UpdateRow? <==> Truthy(routeId))
    ensures r.write.Some? && r.write.value.UpdateRow? ==> r.write.value.id == routeId.value
    ensures r.write.Some? && r.write.value.InsertRow? ==>
      r.write.value.id == newId && r.write.value.createdAt == now && Truthy(r.write.value.payload.imageUrl)
    ensures r.navigateTo.Some? <==> r.write.Some? && written == Success
    ensures r.navigateTo.Some? ==> r.navigateTo.value == AdminProjectsRoute
  {
    if FieldsValid(f.title, f.description, tags) && file.Some? && upload.UploadFailed? then
      SubmitResult(true, None, None)
    else
      SubmitAsWritten(routeId, f, tags, file, preview, uuid, upload, newId, now, written)
  }

  /** The write a submit issues, if any. */
  function WrittenPayload(r: SubmitResult): Option<Payload> {
    if r.write.Some? then Some(r.write.value.payload) else None
  }

  /** With the correction, a save that chose a new file stores that file's
      public URL (when storage gave a non-empty one) and never the preview;
      without a new file it differs from the page as written in nothing. */
  lemma SavedImageIsUploaded(routeId: Option<string>, f: FormData, tags: seq<Tag>, file: Option<FileRef>,
      preview: Option<string>, uuid: string, upload: UploadOutcome, newId: string, now: string, written: Status)
    ensures var r := Submit(routeId, f, tags, file, preview, uuid, upload, newId, now, written);
            file.Some? && r.write.Some? ==>
              upload.Uploaded? &&
              (upload.publicUrl != "" ==> WrittenPayload(r).value.imageUrl == Some(upload.publicUrl))
    ensures file.None? ==>
      Submit(routeId, f, tags, file, preview, uuid, upload, newId, now, written) ==
      SubmitAsWritten(routeId, f, tags, file, preview, uuid, upload, newId, now, written)
  {
  }

  /** `fetchProject`'s form mapping: null links become `''`. */
  function FormDataOf(p: Project): FormData {
    FormData(p.title, p.description, EmptyIfNull(p.demoUrl), EmptyIfNull(p.repoUrl), p.featured)
  }

  /** `data.tags.map(tag => ({ id: uuidv4(), text: tag }))`, the i-th id being
      `tagId(i)`. */
  function LoadedTags(texts: seq<string>, tagId: nat -> string): (tags: seq<Tag>)
    ensures TagTexts(tags) == texts
  {
    seq(|texts|, i requires 0 <= i < |texts| => Tag(tagId(i), texts[i]))
  }

  /** Loading a project and saving it straight back sends the same fields:
      the links come back as they were unless one was stored as `''` (which
      is sent as null), the tags in the same order, and the stored image. */
  lemma {:induction false} LoadThenSaveRoundTrip(p: Project, id: string, tagId: nat -> string,
      uuid: string, newId: string, now: string, written: Status)
    requires id != "" && p.imageUrl != ""
    requires p.title != "" && p.description != "" && |p.tags| > 0
    requires p.demoUrl != Some("") && p.repoUrl != Some("")
    ensures var r := Submit(Some(id), FormDataOf(p), LoadedTags(p.tags, tagId), None, Some(p.imageUrl),
                            uuid, UploadFailed, newId, now, written);
            r.write == Some(UpdateRow(id, Payload(p.title, p.description, Some(p.imageUrl),
                                                  p.demoUrl, p.repoUrl, p.tags, p.featured)))
  {
    NullEmptyRoundTrip(p.demoUrl);
    NullEmptyRoundTrip(p.repoUrl);
    var tags := LoadedTags(p.tags, tagId);
    assert |tags| == |p.tags| && tags[0].text == p.tags[0];
    assert FieldsValid(p.title, p.description, tags);
  }

  /** The page's render chain: the login redirect without a user and the home
      redirect for a non-admin both come before the loading spinner. */
  function PageView(user: Option<Auth.User>, isAdmin: bool, loading: bool): (v: View)
    ensures user.None? ==> v == Redirect(LoginRoute)
    ensures user.Some? && !isAdmin ==> v == Redirect(HomeRoute)
    ensures v == Spinner <==> user.Some? && isAdmin && loading
    ensures v == Content <==> user.Some? && isAdmin && !loading
  {
    if user.None? then Redirect(LoginRoute)
    else if !isAdmin then Redirect(HomeRoute)
    else if loading then Spinner
    else Content
  }

  /** Once the store has settled the page admits exactly the admins the
      admin-only route guard admits. While the store is still loading its
      user is null, so the page (which never reads the store's `loading`)
      redirects to the login page whatever its own fetch is doing, where the
      guard would show its spinner. */
  lemma PageMatchesAdminGuard(user: Option<Auth.User>, isAdmin: bool, fetching: bool)
    ensures PageView(user, isAdmin, false) == ProtectedRoute.Guard(false, user, isAdmin, true)
    ensures PageView(Auth.Initial.user, Auth.Initial.isAdmin, fetching) == Redirect(LoginRoute)
    ensures ProtectedRoute.Guard(Auth.Initial.loading, Auth.Initial.user, Auth.Initial.isAdmin, true) == Spinner
  {
  }

  /** The editor's state. */
  class EditProjectForm {
    const routeId: Option<string>
    var formData: FormData
    var tags: seq<Tag>
    var tagInput: string
    var isSubmitting: bool
    var previewImage: Option<string>
    var imageFile: Option<FileRef>
    var loading: bool

    function Editor(): TagEditor
      reads this
    {
      TagEditor(tags, tagInput)
    }

    /** A blank form; loading starts true exactly when there is an id to load. */
    constructor (routeId: Option<string>)
      ensures this.routeId == routeId
      ensures formData == BlankForm && tags == [] && tagInput == "" && !isSubmitting
      ensures previewImage == None && imageFile == None
      ensures loading == Truthy(routeId)
    {
      this.routeId := routeId;
      formData := BlankForm;
      tags := [];
      tagInput := "";
      isSubmitting := false;
      previewImage := None;
      imageFile := None;
      loading := Truthy(routeId);
    }

    /** `fetchProject` with the row read's answer: a found row fills the form,
        the tags (with ids `tagId(i)`) and, when it has one, the preview; an
        error or no row changes nothing; loading ends false either way. */
    method FetchProject(resp: Response<Project>, tagId: nat -> string)
      modifies this
      ensures !loading
      ensures resp.Data? && resp.data.Some? ==>
        formData == FormDataOf(resp.data.value) &&
        tags == LoadedTags(resp.data.value.tags, tagId) &&
        previewImage == (if resp.data.value.imageUrl != "" then Some(resp.data.value.imageUrl) else old(previewImage))
      ensures !(resp.Data? && resp.data.Some?) ==>
        formData == old(formData) && tags == old(tags) && previewImage == old(previewImage)
      ensures tagInput == old(tagInput) && imageFile == old(imageFile) && isSubmitting == old(isSubmitting)
    {
      if resp.Data? && resp.data.Some? {
        var p := resp.data.value;
        formData := FormDataOf(p);
        tags := LoadedTags(p.tags, tagId);
        if p.imageUrl != "" {
          previewImage := Some(p.imageUrl);
        }
      }
      loading := false;
    }

    /** `addTag` with the generated id `uuid`. */
    method AddTag(uuid: string)
      modifies this
      ensures Editor() == ProjectForm.AddTag(old(Editor()), uuid)
      ensures formData == old(formData) && previewImage == old(previewImage) && imageFile == old(imageFile)
      ensures isSubmitting == old(isSubmitting) && loading == old(loading)
    {
      var e := ProjectForm.AddTag(Editor(), uuid);
      tags, tagInput := e.tags, e.input;
    }

    /** `removeTag(id)`. */
    method RemoveTag(id: string)
      modifies this
      ensures tags == ProjectForm.RemoveTag(old(tags), id) && tagInput == old(tagInput)
      ensures formData == old(formData) && previewImage == old(previewImage) && imageFile == old(imageFile)
      ensures isSubmitting == old(isSubmitting) && loading == old(loading)
    {
      tags := ProjectForm.RemoveTag(tags, id);
    }

    /** `handleTagKeyDown`. */
    method HandleTagKeyDown(key: string, uuid: string)
      modifies this
      ensures Editor() == ProjectForm.HandleTagKeyDown(key, old(Editor()), uuid)
      ensures formData == old(formData) && previewImage == old(previewImage) && imageFile == old(imageFile)
      ensures isSubmitting == old(isSubmitting) && loading == old(loading)
    {
      if key == "Enter" && Trim(tagInput) != "" {
        AddTag(uuid);
      }
    }

    /** `handleImageChange`, the reader having produced `dataUrl`. */
    method HandleImageChange(file: Option<FileRef>, dataUrl: string)
      modifies this
      ensures file.Some? ==> imageFile == file && previewImage == Some(dataUrl)
      ensures file.None? ==> imageFile == old(imageFile) && previewImage == old(previewImage)
      ensures formData == old(formData) && tags == old(tags) && isSubmitting == old(isSubmitting)
      ensures tagInput == old(tagInput) && loading == old(loading)
    {
      if file.Some? {
        imageFile := file;
        previewImage := Some(dataUrl);
      }
    }

    /** `clearImagePreview`: both the preview and the chosen file go. */
    method ClearImagePreview()
      modifies this
      ensures previewImage == None && imageFile == None
      ensures formData == old(formData) && tags == old(tags) && isSubmitting == old(isSubmitting)
      ensures tagInput == old(tagInput) && loading == old(loading)
    {
      previewImage := None;
      imageFile := None;
    }

    /** `handleSubmit` (corrected as `Submit` says). The form itself is left
        as it was; a submit that got past the field check ends with
        `isSubmitting` false, whatever happened after. */
    method HandleSubmit(uuid: string, upload: UploadOutcome, newId: string, now: string, written: Status)
      returns (r: SubmitResult)
      modifies this
      ensures r == Submit(routeId, old(formData), old(tags), old(imageFile), old(previewImage),
                          uuid, upload, newId, now, written)
      ensures isSubmitting == if FieldsValid(old(formData).title, old(formData).description, old(tags))
                              then false else old(isSubmitting)
      ensures formData == old(formData) && tags == old(tags) && tagInput == old(tagInput)
      ensures previewImage == old(previewImage) && imageFile == old(imageFile) && loading == old(loading)
    {
      if formData.title == "" || formData.description == "" || |tags| == 0 {
        return NothingDone;
      }
      isSubmitting := true;
      var isEditing := Truthy(routeId);
      var plan := PlanImage(isEditing, imageFile, previewImage, uuid);
      if plan.Upload? && upload.UploadFailed? {
        isSubmitting := false;
        return SubmitResult(true, None, None);
      }
      var url := UploadImage(plan, upload);
      if !Truthy(url) && !isEditing {
        isSubmitting := false;
        return SubmitResult(imageFile.Some?, None, None);
      }
      var payload := BuildPayload(formData, tags, url, previewImage);
      var w: Write;
      if isEditing {
        w := UpdateRow(routeId.value, payload);
      } else {
        w := InsertRow(payload, newId, now);
      }
      r := SubmitResult(imageFile.Some?, Some(w), if written == Success then Some(AdminProjectsRoute) else None);
      isSubmitting := false;
    }
  }
}
