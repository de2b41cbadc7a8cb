/**
 * The role editor: the list of roles kept by the backend, a form for adding
 * or updating one, and a confirmation step before deleting one. The
 * outcome of each call to the backend is a parameter; the requests the
 * editor sends and the alerts it raises are recorded as effects.
 */
module RoleEditor {
  import opened Wrappers
  import opened Http

  /** A role as the editor holds and sends it. Temperatures are opaque. */
  datatype Role = Role(name: string, description: string, model: string, temperature: real, maxTokens: int,
                       systemPrompt: Option<string>, originalName: Option<string>)

  /** The body of a request to the backend. */
  datatype Body = RoleBody(role: Role) | NameBody(name: string)

  /** A role list requested, a request posted, or an alert. */
  datatype Effect = Fetched(url: string) | Posted(url: string, body: Body) | Alert(text: string)

  const RolesUrl: string := ServerUrl + "/api/roles"
  const AddUrl: string := ServerUrl + "/api/roles/add"
  const UpdateUrl: string := ServerUrl + "/api/roles/update"
  const DeleteUrl: string := ServerUrl + "/api/roles/delete"
  const FetchFailed: string := "Failed to fetch roles"
  const SaveFailed: string := "Failed to save role"
  const DeleteFailed: string := "Failed to delete role"

  /** An empty form for the given model. */
  function BlankForm(model: string): Role {
    Role("", "", model, 0.7, 500, Some(""), None)
  }

  /** The form shown at first and after a cancelled edit. */
  function InitialForm(): Role {
    BlankForm("gemini-pro")
  }

  /** The form shown after a successful save; its model differs from the initial one. */
  function SavedForm(): Role {
    BlankForm("models/gemini-2.0-flash-lite")
  }

  /** The roles a fetch leaves in the list: the returned array, or none at all. */
  function FetchedRoles(reply: Reply<Option<seq<Role>>>): seq<Role> {
    if Succeeded(reply) && reply.json.value.Some? then reply.json.value.value else []
  }

  /** What a fetch does besides setting the list: the request, then an alert unless it succeeded. */
  function FetchEffects(reply: Reply<Option<seq<Role>>>): seq<Effect> {
    [Fetched(RolesUrl)] + if Succeeded(reply) then [] else [Alert(FetchFailed)]
  }

  /** `x || fallback` for an optional string: an absent or empty string is falsy. */
  function OrElse(x: Option<string>, fallback: string): string {
    if x.Some? && x.value != "" then x.value else fallback
  }

  /**
   * The body of a save: the form's fields, a system prompt that is always
   * present (empty when the form has none), and the original name exactly
   * when an existing role is being updated.
   */
  function SaveBody(form: Role, selected: Option<Role>): (body: Role)
    ensures body.name == form.name && body.description == form.description && body.model == form.model
    ensures body.temperature == form.temperature && body.maxTokens == form.maxTokens
    ensures body.systemPrompt.Some?
    ensures form.systemPrompt.Some? ==> body.systemPrompt.value == form.systemPrompt.value
    ensures form.systemPrompt.None? ==> body.systemPrompt.value == ""
    ensures body.originalName.Some? <==> selected.Some?
    ensures selected.Some? ==> body.originalName.value == selected.value.name
  {
    var body := Role(form.name, form.description, form.model, form.temperature, form.maxTokens,
                     Some(OrElse(form.systemPrompt, "")), None);
    if selected.Some? then body.(originalName := Some(selected.value.name)) else body
  }

  /**
   * The alert of a failed save: the message of the error caught. A refused
   * request whose body parses reports its `detail`, or `SaveFailed` when it
   * has none; an unreadable body or a network failure reports its own error.
   */
  function SaveAlert(reply: Reply<Option<string>>): (text: string)
    requires !Succeeded(reply)
    ensures reply.Response? && !reply.ok && reply.json.Parsed? ==>
      text == if reply.json.value.Some? && reply.json.value.value != "" then reply.json.value.value else SaveFailed
    ensures reply.Response? && reply.json.Unparseable? ==> text == reply.json.message
    ensures reply.NetworkFailure? ==> text == reply.message
  {
    match reply
    case NetworkFailure(message) => message
    case Response(_, json) =>
      match json
      case Unparseable(message) => message
      case Parsed(detail) => OrElse(detail, SaveFailed)
  }

  /** The editor's state (`useState`) and the effects it has produced so far. */
  class RoleDebugPanel {
    var roles: seq<Role>
    var selectedRole: Option<Role>
    var isEditing: bool
    var newRole: Role
    var showConfirmModal: bool
    var roleToDelete: Option<string>
    var effects: seq<Effect>

    /** Editing exactly when a role is selected; the modal open exactly when a name awaits deletion. */
    ghost predicate Valid()
      reads this
    {
      && isEditing == selectedRole.Some?
      && showConfirmModal == roleToDelete.Some?
    }

    constructor ()
      ensures Valid()
      ensures roles == [] && selectedRole == None && !isEditing && newRole == InitialForm()
      ensures !showConfirmModal && roleToDelete == None && effects == []
    {
      roles := [];
      selectedRole := None;
      isEditing := false;
      newRole := InitialForm();
      showConfirmModal := false;
      roleToDelete := None;
      effects := [];
    }

    /** `fetchRoles`: the returned array when the body has one, otherwise an empty list; any failure also alerts. */
    method FetchRoles(reply: Reply<Option<seq<Role>>>)
      modifies this`roles, this`effects
      ensures roles == FetchedRoles(reply)
      ensures effects == old(effects) + FetchEffects(reply)
    {
      effects := effects + [Fetched(RolesUrl)];
      match reply {
        case Response(true, Parsed(data)) =>
          roles := if data.Some? then data.value else [];
        case _ =>
          effects := effects + [Alert(FetchFailed)];
          roles := [];
      }
    }

    /**
     * `handleSaveRole`: update when a role is selected, add otherwise. On
     * success the list is fetched again and the form reset; on failure the
     * editor is left as it was and the error is alerted.
     */
    method HandleSaveRole(reply: Reply<Option<string>>, refetch: Reply<Option<seq<Role>>>)
      requires Valid()
      modifies this
      ensures Valid()
      ensures var url := if old(selectedRole).Some? then UpdateUrl else AddUrl;
        && (url == UpdateUrl <==> old(isEditing))
        && var posted := old(effects) + [Posted(url, RoleBody(SaveBody(old(newRole), old(selectedRole))))];
        if Succeeded(reply) then
          && roles == FetchedRoles(refetch) && effects == posted + FetchEffects(refetch)
          && !isEditing && selectedRole == None && newRole == SavedForm()
          && showConfirmModal == old(showConfirmModal) && roleToDelete == old(roleToDelete)
        else
          && effects == posted + [Alert(SaveAlert(reply))]
          && roles == old(roles) && selectedRole == old(selectedRole) && isEditing == old(isEditing)
          && newRole == old(newRole) && showConfirmModal == old(showConfirmModal) && roleToDelete == old(roleToDelete)
    {
      var url := if selectedRole.Some? then UpdateUrl else AddUrl;
      effects := effects + [Posted(url, RoleBody(SaveBody(newRole, selectedRole)))];
      if !Succeeded(reply) {
        effects := effects + [Alert(SaveAlert(reply))];
        return;
      }
      FetchRoles(refetch);
      isEditing := false;
      selectedRole := None;
      newRole := SavedForm();
    }

    /** `handleDeleteRole`: remember the name and open the confirmation. */
    method HandleDeleteRole(roleName: string)
      requires Valid()
      modifies this`roleToDelete, this`showConfirmModal
      ensures Valid()
      ensures roleToDelete == Some(roleName) && showConfirmModal
    {
      roleToDelete := Some(roleName);
      showConfirmModal := true;
    }

    /**
     * `confirmDelete`: with no name (or an empty one) nothing happens.
     * Otherwise the delete is posted; on success the list is fetched again
     * and, if the deleted role was the selected one, the selection is
     * dropped; on failure an alert is raised. Either way the confirmation
     * closes and the pending name is cleared.
     */
    method ConfirmDelete(reply: Reply<()>, refetch: Reply<Option<seq<Role>>>)
      requires Valid()
      modifies this
      ensures Valid()
      ensures old(roleToDelete).None? || old(roleToDelete) == Some("") ==> unchanged(this)
      ensures old(roleToDelete).Some? && old(roleToDelete) != Some("") ==>
        var name := old(roleToDelete).value;
        var deleted := reply.Response? && reply.ok;
        var dropSelection := deleted && old(selectedRole).Some? && old(selectedRole).value.name == name;
        && !showConfirmModal && roleToDelete == None
        && effects == old(effects) + [Posted(DeleteUrl, NameBody(name))]
                      + (if deleted then FetchEffects(refetch) else [Alert(DeleteFailed)])
        && roles == (if deleted then FetchedRoles(refetch) else old(roles))
        && selectedRole == (if dropSelection then None else old(selectedRole))
        && isEditing == (if dropSelection then false else old(isEditing))
        && newRole == old(newRole)
    {
      if roleToDelete.None? || roleToDelete.value == "" {
        return;
      }
      var name := roleToDelete.value;
      effects := effects + [Posted(DeleteUrl, NameBody(name))];
      if reply.Response? && reply.ok {
        FetchRoles(refetch);
        if selectedRole.Some? && selectedRole.value.name == name {
          selectedRole := None;
          isEditing := false;
        }
      } else {
        effects := effects + [Alert(DeleteFailed)];
      }
      showConfirmModal := false;
      roleToDelete := None;
    }

    /** `handleEditRole`: select the role and copy it into the form. */
    method HandleEditRole(role: Role)
      requires Valid()
      modifies this`selectedRole, this`newRole, this`isEditing
      ensures Valid()
      ensures selectedRole == Some(role) && newRole == role && isEditing
    {
      selectedRole := Some(role);
      newRole := role;
      isEditing := true;
    }

    /** The form's Cancel button: leave editing and reset the form to the initial one, not the post-save one. */
    method CancelEdit()
      requires Valid()
      modifies this`isEditing, this`selectedRole, this`newRole
      ensures Valid()
      ensures !isEditing && selectedRole == None && newRole == InitialForm() && newRole != SavedForm()
    {
      isEditing := false;
      selectedRole := None;
      newRole := InitialForm();
    }

    /** The confirmation's Cancel button: close it and forget the name. */
    method CancelDelete()
      requires Valid()
      modifies this`showConfirmModal, this`roleToDelete
      ensures Valid()
      ensures !showConfirmModal && roleToDelete == None
    {
      showConfirmModal := false;
      roleToDelete := None;
    }
  }
}
