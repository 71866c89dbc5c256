/** The generic creation screen (components/Create.tsx): fetch the schema once, submit the form
    through the page's create call, then navigate away, or show why it failed. */
module CreateFlow {
  import opened Common
  import opened Forms
  import SchemaGroups

  /** The `Create` component. `createRequests` records the calls made to `onCreate`;
      `location` is where the router was sent, if anywhere. */
  class CreateView {
    var schema: SchemaGroups.Schema
    var errorMessages: seq<string>
    var formData: Option<FormData>
    var createRequests: seq<FormData>
    var location: Option<string>
    const redirectOnCreate: string

    /** A freshly mounted screen: the schema is `{}` until the fetch issued on mount lands. */
    constructor (redirectOnCreate: string, formData: Option<FormData>)
      ensures schema == SchemaGroups.Schema(None)
      ensures errorMessages == [] && this.formData == formData
      ensures createRequests == [] && location == None
      ensures this.redirectOnCreate == redirectOnCreate
    {
      schema := SchemaGroups.Schema(None);
      errorMessages := [];
      this.formData := formData;
      createRequests := [];
      location := None;
      this.redirectOnCreate := redirectOnCreate;
    }

    /** `fetchSchema`: on failure the schema stays `{}` and the form renders no fields. */
    method SchemaFetched(r: Outcome<SchemaGroups.Schema>)
      modifies this`schema
      ensures schema == if r.Resolved? then r.value else old(schema)
    {
      if r.Resolved? {
        schema := r.value;
      }
    }

    /** A submit press. The form validates (`valid` is the validator's verdict) and calls
        `handleSubmit` only on valid data, which clears the banner, stores the data, awaits
        `onCreate` once, and navigates on success or shows the error; nothing is retried. */
    method Submit(data: FormData, valid: bool, r: Completion)
      modifies this`errorMessages, this`formData, this`createRequests, this`location
      ensures !valid ==> errorMessages == old(errorMessages) && formData == old(formData)
                         && createRequests == old(createRequests) && location == old(location)
      ensures valid ==> formData == Some(data) && createRequests == old(createRequests) + [data]
      ensures valid && r.Completed? ==> errorMessages == [] && location == Some(redirectOnCreate)
      ensures valid && r.Threw? ==> errorMessages == ErrorMessages(r.error) && location == old(location)
    {
      if valid {
        errorMessages := [];
        formData := Some(data);
        createRequests := createRequests + [data];
        if r.Completed? {
          location := Some(redirectOnCreate);
        } else {
          errorMessages := ErrorMessages(r.error);
        }
      }
    }
  }
}
