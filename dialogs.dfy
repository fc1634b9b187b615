/**
 * The modal dialog of `main_app.py`: the form controls a trigger passes to
 * `open_dialog`, the trigger sites on each officer page, and the
 * `ft.AlertDialog` object whose `open` flag Save and Cancel clear.
 */
module Dialogs {
  import opened Routes

  /** A control placed in a dialog, abstracted to its label and initial value. */
  datatype Control =
    | TextField(caption: string, value: string, multiline: bool)   // "" when no value is given
    | Checkbox(caption: string, checked: bool)
    | Note(text: string)                                          // an `ft.Text`, which has no label

  /** The labels of the input controls, in order; a note contributes none. */
  function Labels(controls: seq<Control>): (r: seq<string>)
    ensures (forall k :: 0 <= k < |controls| ==> controls[k].Note?) ==> r == []
  {
    if controls == [] then []
    else
      var head := match controls[0]
        case TextField(caption, _, _) => [caption]
        case Checkbox(caption, _) => [caption]
        case Note(_) => [];
      head + Labels(controls[1..])
  }

  /** The buttons and icons whose `on_click` calls `open_dialog`. */
  datatype Trigger =
    | AddAnnouncement
    | AddWorkshop
    | AddDeadline
    | AddEventTryout
    | EditMember(name: string, duesPaid: bool)
    | UploadDocument

  /** The title each trigger passes to `open_dialog`. */
  function Title(t: Trigger): (r: string)
    ensures r == "Edit Member" <==> t.EditMember?
    ensures !t.EditMember? && !t.UploadDocument? ==> "Add " <= r
    ensures r != ""
  {
    match t
    case AddAnnouncement => "Add Announcement"
    case AddWorkshop => "Add Workshop"
    case AddDeadline => "Add Deadline"
    case AddEventTryout => "Add Event/Tryout"
    case EditMember(_, _) => "Edit Member"
    case UploadDocument => "Upload Document"
  }

  /** The controls each trigger passes to `open_dialog`. */
  function Fields(t: Trigger): (r: seq<Control>)
    ensures t.UploadDocument? <==> Labels(r) == []
    ensures !t.UploadDocument? ==> |Labels(r)| == 2
    ensures !t.EditMember? && !t.UploadDocument? ==> Labels(r)[0] == "Title"
    ensures t.EditMember? ==> r[0] == TextField("Name", t.name, false) && r[1] == Checkbox("Dues Paid?", t.duesPaid)
  {
    match t
    case AddAnnouncement => [TextField("Title", "", false), TextField("Content", "", true)]
    case AddWorkshop => [TextField("Title", "", false), TextField("Date & Time", "", false)]
    case AddDeadline => [TextField("Title", "", false), TextField("Date (e.g., Oct 15)", "", false)]
    case AddEventTryout => [TextField("Title", "", false), TextField("Details", "", false)]
    case EditMember(name, paid) => [TextField("Name", name, false), Checkbox("Dues Paid?", paid)]
    case UploadDocument => [Note("A FilePicker control would be added here.")]
  }

  /** The dialog triggers each content builder places on its page, in page order. */
  function TriggersOn(c: Content): (r: seq<Trigger>)
    ensures r != [] <==> c in {OfficerDashboard, OfficerEvents, OfficerMembers}
    ensures forall k :: 0 <= k < |r| ==> (r[k].EditMember? || r[k].UploadDocument? <==> c == OfficerMembers)
  {
    match c
    case OfficerDashboard => [AddAnnouncement, AddWorkshop]
    case OfficerEvents => [AddDeadline, AddEventTryout]
    case OfficerMembers => [EditMember("John Doe", true), EditMember("Jane Smith", false), UploadDocument]
    case _ => []
  }

  /**
   * An `ft.AlertDialog` built by `open_dialog`. Its Save and Cancel handlers
   * close over this object, so they clear this dialog's flag and no other.
   */
  class AlertDialog {
    const title: string
    const controls: seq<Control>
    var open: bool

    constructor (title: string, controls: seq<Control>)
      ensures this.title == title && this.controls == controls && !open
    {
      this.title := title;
      this.controls := controls;
      open := false;
    }

    /** `close_dialog`, the Cancel button's handler. */
    method Close()
      modifies this
      ensures !open
    {
      open := false;
    }

    /** `save_and_close`, the Save button's handler: no value is read, it only closes. */
    method SaveAndClose()
      modifies this
      ensures !open
    {
      Close();
    }
  }
}
