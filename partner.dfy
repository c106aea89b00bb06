/** The partner-creation modal: three text inputs, a local emptiness check, a JSON POST,
    and the error message shown when the server refuses. */
module Partner {
  import opened Js
  import opened Http

  /** The message shown when a field is left empty. */
  const FillInAll := "Please fill in all fields"

  /** The message shown when a refusal carries no usable `message`. */
  const DefaultFailure := "Error creating partner"

  /** What the engine says when `result.message` is read from a `null` body. */
  const NullRead := "Cannot read properties of null (reading 'message')"

  /** The body the POST sends: `{ username, password, role }`. */
  function PartnerBody(username: string, password: string, role: string): Value {
    Object([Field("username", Str(username)), Field("password", Str(password)), Field("role", Str(role))])
  }

  /** The message the `catch` shows for a reply, or `None` when the partner was created.
      The body is parsed before the status is looked at, so a parse failure wins. */
  function Failure(reply: Reply): (r: Option<string>)
    ensures r.None? <==> OkJson(reply)
    ensures reply.NetworkError? ==> r == Some(reply.message)
    ensures reply.Response? && reply.body.Unparsable? ==> r == Some(reply.body.message)
    ensures reply.Response? && !reply.ok && reply.body.Parsed? && Readable(reply.body.json) ==>
      var m := Member(reply.body.json, "message");
      && (m.Str? && m.s != "" ==> r == Some(m.s))
      && (!Truthy(m) ==> r == Some(DefaultFailure))
  {
    match reply
    case NetworkError(m) => Some(m)
    case Response(ok, Unparsable(m)) => Some(m)
    case Response(ok, Parsed(v)) =>
      if ok then None
      else if !Readable(v) then Some(NullRead)
      else
        var m := Member(v, "message");
        Some(if Truthy(m) then Text(m) else DefaultFailure)
  }

  /** The state of `Create`: whether the modal is open, the three inputs and the error line. */
  class CreatePartner {
    var modalIsOpen: bool
    var username: string
    var password: string
    var role: string
    var error: string

    constructor ()
      ensures !modalIsOpen && username == "" && password == "" && role == "" && error == ""
    {
      modalIsOpen := false;
      username := "";
      password := "";
      role := "";
      error := "";
    }

    /** `openModal`: shows the modal and changes nothing else. */
    method OpenModal()
      modifies this
      ensures modalIsOpen
      ensures username == old(username) && password == old(password) && role == old(role) && error == old(error)
    {
      modalIsOpen := true;
    }

    /** `closeModal`: hides the modal and clears the three inputs and the error. */
    method CloseModal()
      modifies this
      ensures !modalIsOpen && username == "" && password == "" && role == "" && error == ""
    {
      modalIsOpen := false;
      username := "";
      password := "";
      role := "";
      error := "";
    }

    /** The username input's `onChange`. */
    method SetUsername(value: string)
      modifies this
      ensures username == value
      ensures modalIsOpen == old(modalIsOpen) && password == old(password) && role == old(role) && error == old(error)
    {
      username := value;
    }

    /** The password input's `onChange`. */
    method SetPassword(value: string)
      modifies this
      ensures password == value
      ensures modalIsOpen == old(modalIsOpen) && username == old(username) && role == old(role) && error == old(error)
    {
      password := value;
    }

    /** The role input's `onChange`. */
    method SetRole(value: string)
      modifies this
      ensures role == value
      ensures modalIsOpen == old(modalIsOpen) && username == old(username) && password == old(password) && error == old(error)
    {
      role := value;
    }

    /** `handleCreate`: an empty field stops with an error and no request. Otherwise POST the
        three fields as JSON; a created partner closes the modal and clears everything, any
        failure leaves the modal and the inputs as they were and shows its message. */
    method HandleCreate(reply: Reply) returns (req: Option<Request>)
      modifies this
      ensures old(username) == "" || old(password) == "" || old(role) == "" ==>
        && req == None && error == FillInAll
        && modalIsOpen == old(modalIsOpen) && username == old(username)
        && password == old(password) && role == old(role)
      ensures old(username) != "" && old(password) != "" && old(role) != "" ==>
        && req == Some(Request(POST, Api + "auth/create-partnyor", Json(PartnerBody(old(username), old(password), old(role)))))
        && (Failure(reply).None? ==> !modalIsOpen && username == "" && password == "" && role == "" && error == "")
        && (Failure(reply).Some? ==>
              && error == Failure(reply).value && modalIsOpen == old(modalIsOpen)
              && username == old(username) && password == old(password) && role == old(role))
    {
      if username == "" || password == "" || role == "" {
        error := FillInAll;
        return None;
      }
      req := Some(Request(POST, Api + "auth/create-partnyor", Json(PartnerBody(username, password, role))));
      var failure := Failure(reply);
      if failure.Some? {
        error := failure.value;
      } else {
        CloseModal();
      }
    }
  }
}
