/** The admin dashboard: the full artisan list, and a dialog whose form draft either
    creates a record or replaces the one being edited. */
module Admin {
  import opened Domain
  import opened Text

  /** The form draft: six text fields. */
  datatype Form = Form(name: string, skill: string, location: string, phone: string,
                       experience: string, description: string)

  const EmptyForm := Form("", "", "", "", "", "")

  datatype Field = Name | Skill | Location | Phone | Experience | Description

  function FieldOf(f: Form, field: Field): string
  {
    match field
    case Name => f.name
    case Skill => f.skill
    case Location => f.location
    case Phone => f.phone
    case Experience => f.experience
    case Description => f.description
  }

  /** An input's `onChange`: `setFormData({ ...formData, field: value })`. */
  function WithField(f: Form, field: Field, value: string): (r: Form)
    ensures FieldOf(r, field) == value
    ensures forall other :: other != field ==> FieldOf(r, other) == FieldOf(f, other)
  {
    match field
    case Name => f.(name := value)
    case Skill => f.(skill := value)
    case Location => f.(location := value)
    case Phone => f.(phone := value)
    case Experience => f.(experience := value)
    case Description => f.(description := value)
  }

  /** The draft `startEdit` copies out of a record; a missing description reads "". */
  function FormOf(a: Artisan): (r: Form)
    ensures r.description == "" <==> a.description.None? || a.description == Some("")
  {
    Form(a.name, a.skill, a.location, a.phone, a.experience,
         match a.description case None => "" case Some(d) => d)
  }

  datatype HttpMethod = Post | Put | Delete

  /** The JSON body of a save: the draft, the fixed rating, a job count, and the id
      of the record being edited, if any. */
  datatype Payload = Payload(name: string, skill: string, location: string, phone: string,
                             experience: string, description: string, rating: real,
                             completedJobs: int, id: Option<int>)

  datatype Request = Request(verb: HttpMethod, url: string, body: Option<Payload>)

  datatype Toast = Toast(title: string, description: string, destructive: bool)

  /** The rating every save sends. */
  const SavedRating: real := 4.5

  /** `Math.floor(Math.random() * 200) + 10` lies in [10, 209]. */
  predicate JobCount(n: int)
  {
    10 <= n <= 209
  }

  const ArtisansUrl := ApiBase + "/artisans"

  function RecordUrl(id: int): string
  {
    ArtisansUrl + "/" + IntToString(id)
  }

  /** The record id a record URL names. */
  function UrlRecordId(url: string): Option<int>
  {
    if |url| > |ArtisansUrl| + 1 && url[..|ArtisansUrl| + 1] == ArtisansUrl + "/"
    then ParseInt(url[|ArtisansUrl| + 1..])
    else None
  }

  /** What `handleSubmit` sends for the draft `form` while `editing` is or is not set. */
  function SaveRequest(form: Form, editing: Option<Artisan>, completedJobs: int): Request
    requires JobCount(completedJobs)
  {
    var id := match editing case None => None case Some(a) => Some(a.id);
    var body := Payload(form.name, form.skill, form.location, form.phone, form.experience,
                        form.description, SavedRating, completedJobs, id);
    match editing
    case None => Request(Post, ArtisansUrl, Some(body))
    case Some(a) => Request(Put, RecordUrl(a.id), Some(body))
  }

  /** An update is issued exactly when a record is being edited, addressed to that
      record and carrying its id; a create goes to the collection without an id. */
  lemma SaveTargetsEditedRecord(form: Form, editing: Option<Artisan>, completedJobs: int)
    requires JobCount(completedJobs)
    ensures var r := SaveRequest(form, editing, completedJobs);
            (r.verb == Put <==> editing.Some?) &&
            (r.verb == Post <==> editing.None?) &&
            (editing.Some? ==> UrlRecordId(r.url) == Some(editing.value.id) &&
                               r.body.Some? && r.body.value.id == Some(editing.value.id)) &&
            (editing.None? ==> r.url == ArtisansUrl && r.body.Some? && r.body.value.id.None?)
  {
    if editing.Some? {
      var url := RecordUrl(editing.value.id);
      assert url[..|ArtisansUrl| + 1] == ArtisansUrl + "/";
      assert url[|ArtisansUrl| + 1..] == IntToString(editing.value.id);
      IntToStringRoundTrip(editing.value.id);
    }
  }

  /** The body carries the six draft fields as they are, the fixed rating and a job
      count in [10, 209]. */
  lemma SavePayloadCarriesDraft(form: Form, editing: Option<Artisan>, completedJobs: int)
    requires JobCount(completedJobs)
    ensures var b := SaveRequest(form, editing, completedJobs).body;
            b.Some? &&
            Form(b.value.name, b.value.skill, b.value.location, b.value.phone,
                 b.value.experience, b.value.description) == form &&
            b.value.rating == 4.5 && 10 <= b.value.completedJobs <= 209
  {
  }

  /** The record a save body describes once stored under `id`; the body has no
      avatar. */
  function BodyRecord(p: Payload, id: int): Artisan
  {
    Artisan(id, p.name, p.skill, p.location, p.phone, p.experience, Some(p.description),
            Some(p.rating), Some(p.completedJobs), None)
  }

  /** Opening a record for editing and saving without changes sends back the record
      itself, except that a missing description goes out as "", the rating as 4.5,
      the job count as the fresh random one, and the avatar not at all: an unchanged
      edit overwrites the record's real rating and job count. */
  lemma EditUnchangedRoundTrip(a: Artisan, completedJobs: int)
    requires JobCount(completedJobs)
    ensures var r := SaveRequest(FormOf(a), Some(a), completedJobs);
            r.verb == Put && UrlRecordId(r.url) == Some(a.id) && r.body.Some? &&
            r.body.value.id == Some(a.id) &&
            BodyRecord(r.body.value, a.id) ==
              a.(description := Some(if a.description.Some? then a.description.value else ""),
                 rating := Some(SavedRating), completedJobs := Some(completedJobs),
                 avatar := None)
    ensures var b := SaveRequest(FormOf(a), Some(a), completedJobs).body.value;
            (a.description.None? ==> b.description == "") &&
            (a.rating != Some(SavedRating) ==> Some(b.rating) != a.rating) &&
            (a.completedJobs != Some(completedJobs) ==> Some(b.completedJobs) != a.completedJobs)
  {
    SaveTargetsEditedRecord(FormOf(a), Some(a), completedJobs);
  }

  /** Editing record 7 issues an update of record 7. */
  lemma EditSevenUpdatesSeven(a: Artisan, form: Form, completedJobs: int)
    requires a.id == 7 && JobCount(completedJobs)
    ensures SaveRequest(form, Some(a), completedJobs).verb == Put
    ensures SaveRequest(form, Some(a), completedJobs).url == "http://localhost:5000/artisans/7"
    ensures SaveRequest(form, Some(a), completedJobs).body.value.id == Some(7)
  {
    assert IntToString(7) == "7";
  }

  function DeleteRequest(id: int): Request
  {
    Request(Delete, RecordUrl(id), None)
  }

  const FetchFailedToast := Toast("Error", "Failed to fetch artisans", true)
  const SaveFailedToast := Toast("Error", "Failed to save artisan", true)
  const DeletedToast := Toast("Success", "Artisan deleted successfully", false)
  const DeleteFailedToast := Toast("Error", "Failed to delete artisan", true)

  function SavedToast(updated: bool): Toast
  {
    Toast("Success", "Artisan " + (if updated then "updated" else "added") + " successfully", false)
  }

  /** The toasts a list reload adds. */
  function ReloadToasts(response: Outcome<seq<Artisan>>): seq<Toast>
  {
    if response.Ok? then [] else [FetchFailedToast]
  }

  /** The "All Artisans" card. */
  datatype Listing = LoadingRows | NoRows | Rows(items: seq<Artisan>)

  /** What the dashboard shows: the total, the list card, and the dialog's labels. */
  datatype DashboardView = DashboardView(total: nat, listing: Listing, dialogOpen: bool,
                                         dialogTitle: string, submitLabel: string)

  function ViewOf(artisans: seq<Artisan>, loading: bool, showDialog: bool, editing: Option<Artisan>): (v: DashboardView)
    ensures v.total == |artisans|
    ensures v.listing.Rows? <==> !loading && artisans != []
    ensures v.listing.Rows? ==> v.listing.items == artisans
    ensures v.listing.NoRows? ==> v.total == 0
    ensures v.dialogTitle == "Edit Artisan" <==> editing.Some?
  {
    var listing := if loading then LoadingRows else if artisans == [] then NoRows else Rows(artisans);
    DashboardView(|artisans|, listing, showDialog,
                  if editing.Some? then "Edit Artisan" else "Add New Artisan",
                  if editing.Some? then "Update Artisan" else "Add Artisan")
  }

  class Dashboard {
    var artisans: seq<Artisan>
    var loading: bool
    var showDialog: bool
    var editing: Option<Artisan>
    var form: Form
    var toasts: seq<Toast>

    constructor ()
      ensures artisans == [] && loading && !showDialog && editing == None && form == EmptyForm && toasts == []
    {
      artisans, loading, showDialog := [], true, false;
      editing, form, toasts := None, EmptyForm, [];
    }

    /** `fetchArtisans()` settled with `response`: a list replaces the old one whole,
        a failure keeps it and raises a toast; loading always ends. */
    method FetchArtisans(response: Outcome<seq<Artisan>>)
      modifies this`artisans, this`loading, this`toasts
      ensures !loading
      ensures artisans == if response.Ok? then response.data else old(artisans)
      ensures toasts == old(toasts) + ReloadToasts(response)
    {
      loading := true;
      match response {
        case Ok(data) => artisans := data;
        case Fail => toasts := toasts + [FetchFailedToast];
      }
      loading := false;
    }

    /** `resetForm()`: an empty draft, nothing being edited, the dialog closed. */
    method ResetForm()
      modifies this`form, this`editing, this`showDialog
      ensures form == EmptyForm && editing == None && !showDialog
    {
      form := EmptyForm;
      editing := None;
      showDialog := false;
    }

    /** The "Add Artisan" button: `resetForm()` and then open the dialog. */
    method OpenAddDialog()
      modifies this`form, this`editing, this`showDialog
      ensures form == EmptyForm && editing == None && showDialog
    {
      ResetForm();
      showDialog := true;
    }

    /** `startEdit(a)`: the draft takes the record's fields and the dialog opens. */
    method StartEdit(a: Artisan)
      modifies this`form, this`editing, this`showDialog
      ensures form == FormOf(a) && editing == Some(a) && showDialog
    {
      form := FormOf(a);
      editing := Some(a);
      showDialog := true;
    }

    /** The dialog's `onOpenChange`: opening or dismissing it leaves the draft alone. */
    method SetDialogOpen(open: bool)
      modifies this`showDialog
      ensures showDialog == open
    {
      showDialog := open;
    }

    /** An input's `onChange`. */
    method EditField(field: Field, value: string)
      modifies this`form
      ensures form == WithField(old(form), field, value)
    {
      form := WithField(form, field, value);
    }

    /** `handleSubmit`: send the draft; on success reload the list and reset the form,
        on failure keep the draft, the edited record and the dialog as they were. */
    method HandleSubmit(completedJobs: int, saved: bool, reload: Outcome<seq<Artisan>>) returns (request: Request)
      requires JobCount(completedJobs)
      modifies this
      ensures request == SaveRequest(old(form), old(editing), completedJobs)
      ensures saved ==> form == EmptyForm && editing == None && !showDialog && !loading &&
                        artisans == (if reload.Ok? then reload.data else old(artisans)) &&
                        toasts == old(toasts) + [SavedToast(old(editing).Some?)] + ReloadToasts(reload)
      ensures !saved ==> form == old(form) && editing == old(editing) && showDialog == old(showDialog) &&
                         artisans == old(artisans) && loading == old(loading) &&
                         toasts == old(toasts) + [SaveFailedToast]
    {
      request := SaveRequest(form, editing, completedJobs);
      if saved {
        toasts := toasts + [SavedToast(editing.Some?)];
        ResetForm();
        FetchArtisans(reload);
      } else {
        toasts := toasts + [SaveFailedToast];
      }
    }

    /** `handleDelete(id)`: nothing at all unless confirmed; then a DELETE, and on
        success a reload of the list. The draft and the dialog are never touched. */
    method HandleDelete(id: int, confirmed: bool, deleted: bool, reload: Outcome<seq<Artisan>>)
      returns (request: Option<Request>)
      modifies this`artisans, this`loading, this`toasts
      ensures request == if confirmed then Some(DeleteRequest(id)) else None
      ensures !confirmed ==> artisans == old(artisans) && loading == old(loading) && toasts == old(toasts)
      ensures confirmed && deleted ==>
                !loading && artisans == (if reload.Ok? then reload.data else old(artisans)) &&
                toasts == old(toasts) + [DeletedToast] + ReloadToasts(reload)
      ensures confirmed && !deleted ==>
                artisans == old(artisans) && loading == old(loading) &&
                toasts == old(toasts) + [DeleteFailedToast]
    {
      if !confirmed {
        return None;
      }
      request := Some(DeleteRequest(id));
      if deleted {
        toasts := toasts + [DeletedToast];
        FetchArtisans(reload);
      } else {
        toasts := toasts + [DeleteFailedToast];
      }
    }

    function View(): DashboardView
      reads this
    {
      ViewOf(artisans, loading, showDialog, editing)
    }
  }

  /** Whatever state the dialog was left in, "Add Artisan" opens the dialog as a
      create and submitting it starts one. */
  method AddAfterEdit(a: Artisan, completedJobs: int) returns (dialog: DashboardView, request: Request)
    requires JobCount(completedJobs)
    ensures dialog.dialogOpen && dialog.dialogTitle != "Edit Artisan"
    ensures request.verb == Post && request.body.Some? && request.body.value.id.None?
  {
    var page := new Dashboard();
    page.StartEdit(a);
    page.SetDialogOpen(false);
    page.OpenAddDialog();
    dialog := page.View();
    request := page.HandleSubmit(completedJobs, false, Fail);
  }
}
