/** The generic read/update/delete screen (components/Detail.tsx): a form shown readonly until
    Edit is pressed, saved through the page's update call, and deleted only after confirmation. */
module DetailFlow {
  import opened Common
  import opened Forms
  import SchemaGroups
  import TemplateText
  import JsonPicker

  /** What the screen shows. */
  datatype Screen =
    | NotFound
    | Loading
    | Ready(templateProButton: bool, saveButton: bool, formReadonly: bool, banner: seq<string>)

  /** The `Detail` component. `formData` is the page's state that `setFormData` writes;
      `updateRequests` and `removeRequests` record the calls made to `handleUpdate` and
      `handleRemove`. */
  class DetailView {
    var isEditing: bool
    var jsonPickerMode: bool
    var removeDialogOpen: bool
    var loading: bool
    var errorMessages: seq<string>
    var schema: SchemaGroups.Schema
    var formData: Option<FormData>
    var updateRequests: seq<FormData>
    var removeRequests: nat
    const textareaRef: TemplateText.TextareaElement?

    /** Mounting: viewing mode, no dialog, spinner on, schema `{}` until the fetch lands. */
    constructor (formData: Option<FormData>, textareaRef: TemplateText.TextareaElement?)
      ensures !isEditing && !jsonPickerMode && !removeDialogOpen && loading
      ensures errorMessages == [] && schema == SchemaGroups.Schema(None)
      ensures this.formData == formData && this.textareaRef == textareaRef
      ensures updateRequests == [] && removeRequests == 0
    {
      isEditing, jsonPickerMode, removeDialogOpen, loading := false, false, false, true;
      errorMessages := [];
      schema := SchemaGroups.Schema(None);
      this.formData := formData;
      this.textareaRef := textareaRef;
      updateRequests, removeRequests := [], 0;
    }

    /** `fetchSchema`: a failed fetch is only logged, and the schema stays as it was. */
    method SchemaFetched(r: Outcome<SchemaGroups.Schema>)
      modifies this`schema
      ensures schema == if r.Resolved? then r.value else old(schema)
    {
      if r.Resolved? {
        schema := r.value;
      }
    }

    /** `fetchUser`: the record goes to the page, or the error to the banner; the spinner goes
        off either way. */
    method FormDataFetched(r: Outcome<FormData>)
      modifies this`formData, this`errorMessages, this`loading
      ensures !loading
      ensures r.Resolved? ==> formData == Some(r.value) && errorMessages == old(errorMessages)
      ensures r.Rejected? ==> formData == old(formData) && errorMessages == ErrorMessages(r.error)
    {
      if r.Resolved? {
        formData := Some(r.value);
      } else {
        errorMessages := ErrorMessages(r.error);
      }
      loading := false;
    }

    /** The rendered screen: "not found" without data, a spinner while loading, otherwise the
        toolbar, the banner and the form. */
    function View(): (s: Screen)
      reads this
      ensures s.NotFound? <==> formData.None?
      ensures s.Loading? <==> formData.Some? && loading
      ensures s.Ready? ==> && (s.saveButton <==> isEditing)
                           && (s.formReadonly <==> !isEditing)
                           && (s.templateProButton <==> SchemaGroups.HasProperty(schema, "template"))
                           && s.banner == errorMessages
    {
      if formData.None? then NotFound
      else if loading then Loading
      else Ready(SchemaGroups.HasProperty(schema, "template"), isEditing, !isEditing, errorMessages)
    }

    /** The Edit button flips between viewing and editing. */
    method ToggleEdit()
      modifies this`isEditing
      ensures isEditing == !old(isEditing)
    {
      isEditing := !isEditing;
    }

    /** The "Template pro mod" button, shown only when the schema has a `template` field. */
    method ToggleJsonPicker()
      requires SchemaGroups.HasProperty(schema, "template")
      modifies this`jsonPickerMode
      ensures jsonPickerMode == !old(jsonPickerMode)
    {
      jsonPickerMode := !jsonPickerMode;
    }

    /** The toolbar's Remove button only opens the confirmation dialog; nothing is deleted. */
    method ClickRemove()
      modifies this`removeDialogOpen
      ensures removeDialogOpen
    {
      removeDialogOpen := true;
    }

    /** The dialog's Close button, Escape or a click outside: the dialog reports its new state. */
    method RemoveDialogOpenChange(open: bool)
      modifies this`removeDialogOpen
      ensures removeDialogOpen == open
    {
      removeDialogOpen := open;
    }

    /** The dialog's confirm button, the only place `handleRemove` is called. */
    method ConfirmRemove()
      requires removeDialogOpen
      modifies this`removeRequests
      ensures removeRequests == old(removeRequests) + 1
    {
      removeRequests := removeRequests + 1;
    }

    /** `handleSubmit` (the form is rendered with `noValidate`, so any data reaches it): the data
        is stored before the update is awaited; success returns to viewing and keeps earlier
        banner messages, failure stays in the current mode and shows the error. */
    method Submit(data: FormData, r: Completion)
      modifies this`formData, this`updateRequests, this`isEditing, this`errorMessages
      ensures formData == Some(data)
      ensures updateRequests == old(updateRequests) + [data]
      ensures r.Completed? ==> !isEditing && errorMessages == old(errorMessages)
      ensures r.Threw? ==> isEditing == old(isEditing) && errorMessages == ErrorMessages(r.error)
    {
      formData := Some(data);
      updateRequests := updateRequests + [data];
      if r.Completed? {
        isEditing := false;
      } else {
        errorMessages := ErrorMessages(r.error);
      }
    }

    /** `handleInsertText`: the template field alone is spliced at the textarea's selection and the
        caret is put after the insertion. Without a textarea, or without a string `template`
        (where `substring` would throw), nothing changes. */
    method InsertText(text: string)
      modifies this`formData, textareaRef
      ensures textareaRef == null ==> formData == old(formData)
      ensures textareaRef != null && !HasTemplateText(old(formData)) ==>
                formData == old(formData)
                && textareaRef.selectionStart == old(textareaRef.selectionStart)
                && textareaRef.selectionEnd == old(textareaRef.selectionEnd)
      ensures textareaRef != null && HasTemplateText(old(formData)) ==>
                var start, end := old(textareaRef.selectionStart), old(textareaRef.selectionEnd);
                var before := old(formData).value;
                && formData.Some?
                && formData.value == before["template" := Text(TemplateText.Splice(before["template"].text, start, end, text))]
                && formData.value.Keys == before.Keys
                && (forall k :: k in before && k != "template" ==> formData.value[k] == before[k])
                && textareaRef.selectionStart == textareaRef.selectionEnd == start + |text|
    {
      var textarea := textareaRef;
      if textarea != null && HasTemplateText(formData) {
        var start, end := textarea.selectionStart, textarea.selectionEnd;
        var data := formData.value;
        var newValue := TemplateText.Splice(data["template"].text, start, end, text);
        formData := Some(data["template" := Text(newValue)]);
        textarea.SetSelectionRange(start + |text|, start + |text|);
      }
    }

    /** A path chosen in the JSON picker (shown only in pro mode) is inserted as a placeholder,
        with the caret put after it. */
    method ChoosePath(path: string)
      requires jsonPickerMode
      modifies this`formData, textareaRef
      ensures textareaRef != null && HasTemplateText(old(formData)) ==>
                var start, end := old(textareaRef.selectionStart), old(textareaRef.selectionEnd);
                var placeholder := JsonPicker.Placeholder(path);
                && formData == Some(old(formData).value["template" := Text(TemplateText.Splice(
                     old(formData).value["template"].text, start, end, placeholder))])
                && textareaRef.selectionStart == textareaRef.selectionEnd == start + |placeholder|
      ensures textareaRef == null || !HasTemplateText(old(formData)) ==> formData == old(formData)
    {
      InsertText(JsonPicker.Placeholder(path));
    }
  }

  /** `formData.template` exists and is a string. */
  predicate HasTemplateText(data: Option<FormData>) {
    data.Some? && "template" in data.value && data.value["template"].Text?
  }
}
