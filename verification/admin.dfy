/** The signed-in user as the identity provider describes it, and the approval rule:
    the administrator (recognised by the primary email address) is always approved,
    anyone else only when an administrator has set `approved` to `true` in the user's
    public metadata. */
module Admin {
  import opened Common
  import opened JsValues

  /** `ADMIN_EMAIL`. */
  const AdminEmail := "rakeshkanojia96@gmail.com"

  /** A metadata object, as its properties by name. */
  type Metadata = map<string, Value>

  /** `meta?.key`: undefined when the object or the property is missing. */
  function Get(meta: Option<Metadata>, key: string): (v: Value)
    ensures meta.None? ==> v == Undefined
    ensures meta.Some? && key !in meta.value ==> v == Undefined
  {
    if meta.Some? && key in meta.value then meta.value[key] else Undefined
  }

  /** A user record. Each entry of `emailAddresses` is given by the value of its
      `emailAddress` property (`Undefined` for an entry without one). */
  datatype User = User(id: Value, fullName: Value, emailAddresses: seq<Value>,
                       publicMetadata: Option<Metadata>, unsafeMetadata: Option<Metadata>)

  /** `user?.emailAddresses[0]?.emailAddress`. */
  function PrimaryEmail(user: Option<User>): (v: Value)
    ensures user.None? ==> v == Undefined
    ensures user.Some? && user.value.emailAddresses == [] ==> v == Undefined
  {
    if user.Some? && |user.value.emailAddresses| > 0 then user.value.emailAddresses[0] else Undefined
  }

  /** `isUserAdmin`: the primary email address is strictly equal to the administrator's. */
  function IsUserAdmin(user: Option<User>): (r: bool)
    ensures r <==> user.Some? && |user.value.emailAddresses| > 0
                   && user.value.emailAddresses[0] == Str(AdminEmail)
  {
    PrimaryEmail(user) == Str(AdminEmail)
  }

  /** `isUserApproved`: the administrator, or a user whose public metadata holds
      `approved: true`. */
  function IsUserApproved(user: Option<User>): (r: bool)
    ensures IsUserAdmin(user) ==> r
    ensures !IsUserAdmin(user) ==>
              (r <==> user.Some? && user.value.publicMetadata.Some?
                      && "approved" in user.value.publicMetadata.value
                      && user.value.publicMetadata.value["approved"] == Bool(true))
  {
    if IsUserAdmin(user) then true
    else user.Some? && Get(user.value.publicMetadata, "approved") == Bool(true)
  }

  /** Only the first address counts: what follows it never makes or unmakes an admin. */
  lemma AdminIgnoresLaterAddresses(u: User, rest: seq<Value>)
    requires |u.emailAddresses| > 0
    ensures IsUserAdmin(Some(u.(emailAddresses := [u.emailAddresses[0]] + rest)))
        == IsUserAdmin(Some(u))
  {
  }

  /** The administrator's address in second place does not make a user an admin. */
  lemma AdminAddressSecondIsNotAdmin(u: User, first: Value)
    requires first != Str(AdminEmail)
    ensures !IsUserAdmin(Some(u.(emailAddresses := [first, Str(AdminEmail)])))
  {
  }

  /** Without a user, or for a non-admin without public metadata, nobody is approved. */
  lemma MissingMeansNotApproved(u: User)
    ensures !IsUserApproved(None)
    ensures !IsUserAdmin(Some(u)) ==> !IsUserApproved(Some(u.(publicMetadata := None)))
  {
  }

  /** Approval needs the boolean `true` itself: truthy look-alikes such as the string
      "true" or the number 1 do not approve a non-admin. */
  lemma ApprovalIsStrict(u: User, v: Value)
    requires !IsUserAdmin(Some(u))
    ensures IsUserApproved(Some(u.(publicMetadata := Some(map["approved" := v])))) <==> v == Bool(true)
    ensures Truthy(Str("true")) && !IsUserApproved(Some(u.(publicMetadata := Some(map["approved" := Str("true")]))))
    ensures Truthy(Num(1.0)) && !IsUserApproved(Some(u.(publicMetadata := Some(map["approved" := Num(1.0)]))))
  {
    var strUser := u.(publicMetadata := Some(map["approved" := Str("true")]));
    assert Get(strUser.publicMetadata, "approved") == Str("true");
  }
}
