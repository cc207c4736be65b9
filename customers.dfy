/** Customers (`Customer` and `CustomerManager` in shop/models.py): the account record, its
    full name, and the guards that `create_user` and `create_superuser` apply. */
module Customers {
  import opened Base
  import opened Text

  /** A customer account.  `username` is the transient attribute the registration form sets:
      the model declares `username = None`, so it is not a column. */
  datatype Customer = Customer(
    email: string,
    phone: string,
    firstName: string,
    lastName: string,
    patronymic: string,
    isStaff: bool,
    isSuperuser: bool,
    isActive: bool,
    username: Option<string>)
  {
    /** `get_full_name`: "last first patronymic", the patronymic only when it is not blank. */
    function FullName(): (r: string)
      ensures |r| == |lastName| + 1 + |firstName| + (if patronymic != "" then 1 + |patronymic| else 0)
      ensures r[..|lastName|] == lastName && r[|lastName|] == ' '
      ensures r[|lastName| + 1..|lastName| + 1 + |firstName|] == firstName
      ensures patronymic != "" ==> r[|r| - |patronymic| - 1] == ' ' && r[|r| - |patronymic|..] == patronymic
    {
      if patronymic != "" then lastName + " " + firstName + " " + patronymic
      else lastName + " " + firstName
    }
  }

  /** The name parts, in the order `get_full_name` writes them. */
  function NameParts(c: Customer): seq<string> {
    [c.lastName, c.firstName] + (if c.patronymic != "" then [c.patronymic] else [])
  }

  /** When no name part holds a space, splitting the full name on spaces gives back the last
      name, the first name and, when present, the patronymic. */
  lemma FullNameSplits(c: Customer)
    requires ' ' !in c.lastName && ' ' !in c.firstName && ' ' !in c.patronymic
    ensures Split(c.FullName(), ' ') == NameParts(c)
  {
    if c.patronymic != "" {
      assert c.FullName() == c.lastName + [' '] + (c.firstName + [' '] + c.patronymic);
      SplitAfter(c.lastName, ' ', c.firstName + [' '] + c.patronymic);
      SplitAfter(c.firstName, ' ', c.patronymic);
    } else {
      assert c.FullName() == c.lastName + [' '] + c.firstName;
      SplitAfter(c.lastName, ' ', c.firstName);
    }
  }

  /** The `**extra_fields` the account flags can come from; `None` when the caller left one out. */
  datatype ExtraFields = ExtraFields(isStaff: Option<bool>, isSuperuser: Option<bool>, isActive: Option<bool>)

  /** The `ValueError`s the manager raises. */
  datatype UserError = EmailRequired | PhoneRequired | StaffRequired | SuperuserRequired

  function Flag(f: Option<bool>, default: bool): bool {
    match f
    case Some(b) => b
    case None => default
  }

  /** The account `create_user` builds: email and phone must be non-blank (email checked
      first), the email goes through the manager's normaliser, and a flag the caller left out
      takes the account default (not staff, not superuser, active). */
  function NewUser(email: string, phone: string, firstName: string, lastName: string,
                   extra: ExtraFields, normalize: string -> string): (r: Result<Customer, UserError>)
    ensures r == Failure(EmailRequired) <==> email == ""
    ensures r == Failure(PhoneRequired) <==> email != "" && phone == ""
    ensures r.Success? <==> email != "" && phone != ""
    ensures r.Success? ==>
      && r.value.email == normalize(email) && r.value.phone == phone
      && r.value.firstName == firstName && r.value.lastName == lastName
      && r.value.patronymic == "" && r.value.username == None
      && (r.value.isStaff <==> extra.isStaff == Some(true))
      && (r.value.isSuperuser <==> extra.isSuperuser == Some(true))
      && (r.value.isActive <==> extra.isActive != Some(false))
  {
    if email == "" then Failure(EmailRequired)
    else if phone == "" then Failure(PhoneRequired)
    else Success(Customer(normalize(email), phone, firstName, lastName, "",
                          Flag(extra.isStaff, false), Flag(extra.isSuperuser, false),
                          Flag(extra.isActive, true), None))
  }

  /** `extra_fields.setdefault(...)` for is_staff, is_superuser and is_active. */
  function SuperuserDefaults(extra: ExtraFields): ExtraFields {
    ExtraFields(Some(Flag(extra.isStaff, true)), Some(Flag(extra.isSuperuser, true)), Some(Flag(extra.isActive, true)))
  }

  /** The account `create_superuser` builds: the staff and superuser flags default to true and
      may not be set to false (staff checked first); then `create_user`'s guards apply. */
  function NewSuperuser(email: string, phone: string, firstName: string, lastName: string,
                        extra: ExtraFields, normalize: string -> string): (r: Result<Customer, UserError>)
    ensures r == Failure(StaffRequired) <==> extra.isStaff == Some(false)
    ensures r == Failure(SuperuserRequired) <==> extra.isStaff != Some(false) && extra.isSuperuser == Some(false)
    ensures extra.isStaff != Some(false) && extra.isSuperuser != Some(false) ==>
              r == NewUser(email, phone, firstName, lastName, SuperuserDefaults(extra), normalize)
    ensures r.Success? ==> r.value.isStaff && r.value.isSuperuser
    ensures r.Success? ==> (r.value.isActive <==> extra.isActive != Some(false))
  {
    var fields := SuperuserDefaults(extra);
    if fields.isStaff != Some(true) then Failure(StaffRequired)
    else if fields.isSuperuser != Some(true) then Failure(SuperuserRequired)
    else NewUser(email, phone, firstName, lastName, fields, normalize)
  }

  /** `Customer.objects`: the saved accounts, in the order they were saved. */
  class CustomerManager {
    var rows: seq<Customer>

    constructor ()
      ensures rows == []
    {
      rows := [];
    }

    /** `create_user`: builds the account and saves it; nothing is saved when a guard fails. */
    method CreateUser(email: string, phone: string, firstName: string, lastName: string,
                      extra: ExtraFields, normalize: string -> string) returns (r: Result<Customer, UserError>)
      modifies this
      ensures r == NewUser(email, phone, firstName, lastName, extra, normalize)
      ensures rows == old(rows) + (if r.Success? then [r.value] else [])
    {
      r := NewUser(email, phone, firstName, lastName, extra, normalize);
      if r.Success? {
        rows := rows + [r.value];
      }
    }

    /** `create_superuser`: checks the flags, then hands over to `create_user`. */
    method CreateSuperuser(email: string, phone: string, firstName: string, lastName: string,
                           extra: ExtraFields, normalize: string -> string) returns (r: Result<Customer, UserError>)
      modifies this
      ensures r == NewSuperuser(email, phone, firstName, lastName, extra, normalize)
      ensures rows == old(rows) + (if r.Success? then [r.value] else [])
    {
      var fields := SuperuserDefaults(extra);
      if fields.isStaff != Some(true) {
        return Failure(StaffRequired);
      }
      if fields.isSuperuser != Some(true) {
        return Failure(SuperuserRequired);
      }
      r := CreateUser(email, phone, firstName, lastName, fields, normalize);
    }
  }
}
